// What the bridge's handlers make of the node registry: whom it lists, since when, and that it never holds a
// position.

module BridgeRegistry {
  import opened Base
  import opened Sapient
  import opened TaskQueues
  import opened Bridge
  import opened BridgeTasks
  import Registry
  import Routing
  import Transforms

  // ---- what a routed message leads to ----

  predicate AlwaysRefreshes(msg: SapientMessage) {
    msg.content.Some? && (msg.content.value.ContentRegistration? || msg.content.value.ContentStatusReport?)
  }

  /** The messages that count as a sign of life: registrations, status reports, and detections that pass the
      limiter and can be placed. */
  predicate Refreshes(g: Transforms.Geodesy, sensor: Option<Position>, msg: SapientMessage, admitted: bool) {
    AlwaysRefreshes(msg) ||
    (Routing.IsDetection(msg) && admitted && Transforms.TrackPositionOf(g, sensor, msg.content.value.detection).Ok?)
  }

  /** Exactly the refreshing messages refresh their node; and an acknowledgement goes on to dequeue its task
      whatever status it reports. */
  lemma RouteDecides(cfg: Config, b: Inner, c: nat, h: Handler, admitted: bool)
    requires h.pc.Route?
    ensures var msg, pc := h.pc.msg, HandlerMove(cfg, b, c, h, admitted).1.pc;
      (pc.UpsertNode? <==> Refreshes(cfg.geodesy, Registry.PositionIn(b.registry, msg.Node()), msg, admitted)) &&
      (pc.UpsertNode? ==> pc.node == msg.Node()) &&
      (forall id, status :: msg.content == Some(ContentTaskAck(id, status)) ==>
        pc == Dequeue(msg.Node(), Routing.TaskIdOf(id), Routing.TaskAckStatusOf(status)))
  {
    hide Transforms.TrackPositionOf, Transforms.FromStatusReport, Transforms.FromRegistration, Registry.PositionIn;
    hide Routing.TaskAckStatusOf;
  }

  /** The advertisement an update brings: a registration's, or a status report's delta. */
  function BroughtBy(u: SapientUpdate): Option<CapabilityAdvertisement> {
    if u.Registered? then Some(u.advertisement)
    else if u.StatusUpdated? then u.capabilityDelta
    else None
  }

  /** A handler touches the registry only to refresh the node of its message, keeping any position and the
      capability unless the update brings one, and to take out its own node on leaving. */
  lemma RegistryEffect(cfg: Config, b: Inner, c: nat, h: Handler, admitted: bool)
    requires HandlerReady(b, h)
    ensures var r, r' := b.registry, HandlerMove(cfg, b, c, h, admitted).0.registry;
      if h.pc.UpsertNode? then
        var n, given := h.pc.node, BroughtBy(h.pc.update);
        r'.Keys == r.Keys + {n} && r'[n].lastSeen == b.now && Registry.PositionIn(r', n) == Registry.PositionIn(r, n) &&
        r'[n].capability == (if given.Some? then given else if n in r then r[n].capability else None) &&
        forall m :: m in r && m != n ==> r'[m] == r[m]
      else if h.pc.LeaveRegistry? then r' == r - {NodeOf(h)}
      else r' == r
  {
    hide AfterDrain, AfterAck, PendingOf, ExpiredIds, Purge, RegistrationAck, TakenCommand, NodeOf, PcAfterRoute;
  }

  /** The watchdog takes nodes out; no other step touches the registry. */
  lemma RegistryUntouched(cfg: Config, s: State, a: Action)
    requires Enabled(s, a) && !a.HandlerStep?
    ensures Apply(cfg, s, a).inner.registry ==
      if a.WatchdogRemove? then s.inner.registry - {a.node} else s.inner.registry
  {
    if a.SenderStep? {
      if !s.senders[a.i].pc.SendLive? { SenderKeepsRegistry(cfg, s.inner, a.i, s.senders[a.i]); }
      hide SenderMove;
    }
    hide Routing.ExtractTaskId, Received;
  }

  lemma SenderKeepsRegistry(cfg: Config, b: Inner, i: nat, t: Sender)
    requires SenderReady(b, t)
    ensures SenderMove(cfg, b, i, t).0.registry == b.registry
  {
    hide LostByEnqueue, QueuesAfterEnqueue, Purge;
  }

  // ---- the bridge never stores a position ----

  ghost predicate NoPositions(nodes: Registry.Nodes) { forall n :: n in nodes ==> nodes[n].lastPosition.None? }

  lemma PositionsStep(cfg: Config, s: State, a: Action)
    requires Enabled(s, a) && NoPositions(s.inner.registry)
    ensures NoPositions(Apply(cfg, s, a).inner.registry)
  {
    if a.HandlerStep? {
      RegistryEffect(cfg, s.inner, a.c, s.handlers[a.c], a.admitted);
      hide HandlerMove, HandlerReady, BroughtBy;
    } else {
      RegistryUntouched(cfg, s, a);
      hide Apply, Enabled;
    }
  }

  lemma {:induction false} PositionsHold(cfg: Config, s: State, actions: seq<Action>, t: State)
    requires NoPositions(s.inner.registry) && Run(cfg, s, actions, t)
    ensures NoPositions(t.inner.registry)
    decreases |actions|
  {
    if actions != [] {
      PositionsStep(cfg, s, actions[0]);
      hide Apply, Enabled, NoPositions;
      PositionsHold(cfg, Apply(cfg, s, actions[0]), actions[1..], t);
    }
  }

  /** `registry.rs` says the stored position resolves range-bearing detections, but the handler never stores
      one: in no run does an admitted range-bearing detection become an update. */
  lemma {:induction false} RangeBearingNeverMaps(
    cfg: Config, actions: seq<Action>, s: State, c: nat, msg: SapientMessage, dr: Sapient.DetectionReport)
    requires Run(cfg, START, actions, s) && c < |s.handlers| && s.handlers[c].pc == Route(msg)
    requires msg.content == Some(ContentDetectionReport(dr)) && Transforms.IsRangeBearing(dr)
    ensures Apply(cfg, s, HandlerStep(c, true)) == s.(handlers := s.handlers[c := s.handlers[c].(
      pc := Reading, verdicts := s.handlers[c].verdicts + [true])])
  {
    PositionsHold(cfg, START, actions, s);
    hide Run;
  }

  // ---- since when a node counts as heard ----

  datatype Standing = Absent | HeardAt(at: nat, msg: SapientMessage)

  /** Read off the message a handler last read: it has just counted as a sign of life of its node, or the
      handler is leaving, or the watchdog gives the node up. */
  function StandingAfter(s: State, a: Action, n: string, was: Standing): Standing
    requires Enabled(s, a)
  {
    if a.WatchdogRemove? then (if a.node == n then Absent else was)
    else if !a.HandlerStep? then was
    else
      var h := s.handlers[a.c];
      if h.pc.UpsertNode? && h.heard != [] && h.heard[|h.heard| - 1].Node() == n
      then HeardAt(s.inner.now, h.heard[|h.heard| - 1])
      else if h.pc.LeaveRegistry? && NodeOf(h) == n then Absent
      else was
  }

  ghost function StandingOver(cfg: Config, s: State, actions: seq<Action>, n: string, was: Standing): Standing
    decreases |actions|
  {
    if actions == [] || !Enabled(s, actions[0]) then was
    else StandingOver(cfg, Apply(cfg, s, actions[0]), actions[1..], n, StandingAfter(s, actions[0], n, was))
  }

  predicate LastHeard(h: Handler, msg: SapientMessage) { h.heard != [] && h.heard[|h.heard| - 1] == msg }

  /** The message a handler works on is the one it read last, and it only refreshes for a refreshing one. */
  predicate HeardFits(cfg: Config, h: Handler) {
    match h.pc
    case Publish(msg) => LastHeard(h, msg)
    case SendAck(msg) => LastHeard(h, msg)
    case DrainQueue(msg) => LastHeard(h, msg)
    case PurgeExpired(msg, _) => LastHeard(h, msg)
    case Replay(msg, _) => LastHeard(h, msg)
    case Route(msg) => LastHeard(h, msg)
    case UpsertNode(n, _) =>
      h.heard != [] && h.heard[|h.heard| - 1].Node() == n && Refreshes(cfg.geodesy, None, h.heard[|h.heard| - 1], true)
    case _ => true
  }

  ghost predicate AllHeardFit(cfg: Config, s: State) {
    forall c :: 0 <= c < |s.handlers| ==> HeardFits(cfg, s.handlers[c])
  }

  lemma HandlerKeepsHeard(cfg: Config, b: Inner, c: nat, h: Handler, admitted: bool)
    requires HandlerReady(b, h) && HeardFits(cfg, h) && NoPositions(b.registry)
    ensures HeardFits(cfg, HandlerMove(cfg, b, c, h, admitted).1)
  {
    if h.pc.Route? {
      RouteFits(cfg, b, h, admitted);
      RouteDecides(cfg, b, c, h, admitted);
      assert Registry.PositionIn(b.registry, h.pc.msg.Node()) == None;
    }
    hide PcAfterRoute, Refreshes, NoPositions, Registry.PositionIn, Registry.Upserted;
    hide AfterDrain, AfterAck, PendingOf, ExpiredIds, Purge, RegistrationAck, CapabilityOf, TakenCommand, NodeOf;
  }

  lemma HeardStep(cfg: Config, s: State, a: Action)
    requires Enabled(s, a) && AllHeardFit(cfg, s) && NoPositions(s.inner.registry)
    ensures AllHeardFit(cfg, Apply(cfg, s, a))
  {
    hide SenderMove, Refreshes, NoPositions, Routing.ExtractTaskId;
    if a.HandlerStep? {
      HandlerKeepsHeard(cfg, s.inner, a.c, s.handlers[a.c], a.admitted);
      hide HandlerMove, HandlerReady, HeardFits;
    }
  }

  /** The registry lists the node exactly as its standing says. */
  ghost predicate Lists(cfg: Config, nodes: Registry.Nodes, n: string, standing: Standing) {
    match standing
    case Absent => n !in nodes
    case HeardAt(at, msg) =>
      n in nodes && nodes[n].lastSeen == at && msg.Node() == n && Refreshes(cfg.geodesy, None, msg, true)
  }

  lemma HandlerLists(cfg: Config, s: State, c: nat, admitted: bool, n: string, was: Standing)
    requires Enabled(s, HandlerStep(c, admitted)) && HeardFits(cfg, s.handlers[c]) &&
      Lists(cfg, s.inner.registry, n, was)
    ensures Lists(cfg, HandlerMove(cfg, s.inner, c, s.handlers[c], admitted).0.registry, n,
                  StandingAfter(s, HandlerStep(c, admitted), n, was))
  {
    RegistryEffect(cfg, s.inner, c, s.handlers[c], admitted);
    hide HandlerMove, HandlerReady, BroughtBy, Refreshes, NodeOf, Registry.PositionIn;
  }

  lemma ListsStep(cfg: Config, s: State, a: Action, n: string, was: Standing)
    requires Enabled(s, a) && AllHeardFit(cfg, s) && Lists(cfg, s.inner.registry, n, was)
    ensures Lists(cfg, Apply(cfg, s, a).inner.registry, n, StandingAfter(s, a, n, was))
  {
    if a.HandlerStep? {
      assert HeardFits(cfg, s.handlers[a.c]);
      HandlerLists(cfg, s, a.c, a.admitted, n, was);
      hide HandlerMove, HandlerReady, AllHeardFit, HeardFits, Lists, StandingAfter;
    } else {
      RegistryUntouched(cfg, s, a);
      hide Apply, Enabled;
    }
  }

  lemma {:induction false} ListsHolds(
    cfg: Config, s: State, actions: seq<Action>, t: State, n: string, was: Standing)
    requires Run(cfg, s, actions, t)
    requires AllHeardFit(cfg, s) && NoPositions(s.inner.registry) && Lists(cfg, s.inner.registry, n, was)
    ensures Lists(cfg, t.inner.registry, n, StandingOver(cfg, s, actions, n, was))
    decreases |actions|
  {
    if actions != [] {
      ListsStep(cfg, s, actions[0], n, was);
      HeardStep(cfg, s, actions[0]);
      PositionsStep(cfg, s, actions[0]);
      hide Apply, Enabled, AllHeardFit, NoPositions, Lists, StandingAfter;
      ListsHolds(cfg, Apply(cfg, s, actions[0]), actions[1..], t, n, StandingAfter(s, actions[0], n, was));
    }
  }

  /** In every reachable state a node is listed exactly when it was heard since a handler or the watchdog last
      took it out, and its `last_seen` is the instant of its last refreshing message, not of its last message. */
  lemma {:induction false} LastSeenIsLastRefresh(cfg: Config, actions: seq<Action>, t: State, n: string)
    requires Run(cfg, START, actions, t)
    ensures var standing := StandingOver(cfg, START, actions, n, Absent);
      (n in t.inner.registry <==> standing.HeardAt?) &&
      (standing.HeardAt? ==>
        t.inner.registry[n].lastSeen == standing.at && standing.msg.Node() == n &&
        Refreshes(cfg.geodesy, None, standing.msg, true))
  {
    ListsHolds(cfg, START, actions, t, n, Absent);
    hide Run, StandingOver, Refreshes;
  }
}
