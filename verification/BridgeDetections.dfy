// The rate limit on runs of the bridge itself: with every admission decided by the one shared limiter, in the
// order in which the handlers route.

module BridgeDetections {
  import opened Base
  import opened Sapient
  import opened TaskQueues
  import opened Bridge
  import opened RateLimit
  import opened Routing
  import BridgeTraces
  import Registry
  import Transforms

  /** Seconds, at `unit` seconds to a clock unit. */
  function Instant(unit: real, now: nat): real { now as real * unit }

  lemma InstantsGrow(unit: real, m: nat, n: nat)
    requires unit >= 0.0 && m <= n
    ensures Instant(unit, m) <= Instant(unit, n)
  {
    assert (n - m) as real * unit >= 0.0;
    assert n as real == m as real + (n - m) as real;
  }

  predicate Routes(s: State, a: Action) { a.HandlerStep? && a.c < |s.handlers| && s.handlers[a.c].pc.Route? }

  /** The message a step routes, as it reaches the limiter. */
  function ArrivalOf(unit: real, s: State, a: Action): Arrival
    requires Routes(s, a)
  {
    var msg := s.handlers[a.c].pc.msg;
    Arrival(Instant(unit, s.inner.now), msg, Registry.PositionIn(s.inner.registry, msg.Node()))
  }

  function Arriving(unit: real, s: State, a: Action): seq<Arrival> {
    if Routes(s, a) then [ArrivalOf(unit, s, a)] else []
  }

  ghost function ArrivalsOver(cfg: Config, unit: real, s: State, actions: seq<Action>): seq<Arrival>
    decreases |actions|
  {
    if actions == [] || !Enabled(s, actions[0]) then []
    else Arriving(unit, s, actions[0]) + ArrivalsOver(cfg, unit, Apply(cfg, s, actions[0]), actions[1..])
  }

  /** Every admission of the run is the limiter's answer after the arrivals so far. */
  ghost predicate Limited(
    cfg: Config, c: RateLimitConfig, unit: real, s: State, actions: seq<Action>, before: seq<Arrival>)
    decreases |actions|
  {
    actions == [] || !Enabled(s, actions[0]) ||
    ((Routes(s, actions[0]) ==> actions[0].admitted == AdmitLast(c, before + [ArrivalOf(unit, s, actions[0])])) &&
     Limited(cfg, c, unit, Apply(cfg, s, actions[0]), actions[1..], before + Arriving(unit, s, actions[0])))
  }

  predicate ReportsTrack(pc: HandlerPc, node: string) {
    pc.UpsertNode? && pc.update.Detected? && pc.update.nodeId == node
  }

  /** The instant of the step, if it turns a message into a detection of the node. */
  function DetectedBy(cfg: Config, unit: real, s: State, a: Action, node: string): seq<real>
    requires Enabled(s, a)
  {
    if Routes(s, a) && ReportsTrack(Apply(cfg, s, a).handlers[a.c].pc, node) then [Instant(unit, s.inner.now)] else []
  }

  ghost function DetectedOver(cfg: Config, unit: real, s: State, actions: seq<Action>, node: string): seq<real>
    decreases |actions|
  {
    if actions == [] || !Enabled(s, actions[0]) then []
    else
      DetectedBy(cfg, unit, s, actions[0], node) +
      DetectedOver(cfg, unit, Apply(cfg, s, actions[0]), actions[1..], node)
  }

  /** One routing step detects what the limiter in front of the routing lets through. */
  lemma StepDetects(
    cfg: Config, c: RateLimitConfig, unit: real, s: State, a: Action, before: seq<Arrival>, node: string)
    requires Enabled(s, a) && Routes(s, a)
    requires a.admitted == AdmitLast(c, before + [ArrivalOf(unit, s, a)])
    ensures NewDetection(cfg.geodesy, c, before + [ArrivalOf(unit, s, a)], node) == DetectedBy(cfg, unit, s, a, node)
  {
    hide RouteMessage, AdmitLast, Registry.PositionIn, Instant;
  }

  lemma {:induction false} OneMoreArrival(
    g: Transforms.Geodesy, c: RateLimitConfig, before: seq<Arrival>, a: Arrival, node: string)
    ensures DetectedTimes(g, c, before + [a], node)
         == DetectedTimes(g, c, before, node) + NewDetection(g, c, before + [a], node)
  {
    assert (before + [a])[..|before|] == before;
    hide NewDetection;
  }

  lemma {:induction false} StepTimes(
    cfg: Config, c: RateLimitConfig, unit: real, s: State, a: Action, before: seq<Arrival>, node: string)
    requires Enabled(s, a)
    requires Routes(s, a) ==> a.admitted == AdmitLast(c, before + [ArrivalOf(unit, s, a)])
    ensures DetectedTimes(cfg.geodesy, c, before + Arriving(unit, s, a), node)
         == DetectedTimes(cfg.geodesy, c, before, node) + DetectedBy(cfg, unit, s, a, node)
  {
    hide DetectedTimes, AdmitLast;
    if Routes(s, a) {
      StepDetects(cfg, c, unit, s, a, before, node);
      OneMoreArrival(cfg.geodesy, c, before, ArrivalOf(unit, s, a), node);
    } else {
      NoRouteNoDetection(cfg, unit, s, a, node);
      assert before + [] == before;
    }
    hide DetectedBy;
  }

  lemma Regroup<T>(a: seq<T>, b: seq<T>, c: seq<T>)
    ensures a + (b + c) == (a + b) + c
  {
  }

  /** Over a limited run the bridge detects exactly what the limiter in front of the routing lets through. */
  lemma {:induction false} RunDetects(
    cfg: Config, c: RateLimitConfig, unit: real, s: State, actions: seq<Action>, before: seq<Arrival>, node: string)
    requires Limited(cfg, c, unit, s, actions, before)
    ensures DetectedTimes(cfg.geodesy, c, before + ArrivalsOver(cfg, unit, s, actions), node)
         == DetectedTimes(cfg.geodesy, c, before, node) + DetectedOver(cfg, unit, s, actions, node)
    decreases |actions|
  {
    hide DetectedTimes, DetectedBy, Arriving, Routes, ArrivalOf, AdmitLast, Apply, Enabled;
    if actions == [] || !Enabled(s, actions[0]) {
      assert before + [] == before;
    } else {
      var a := actions[0];
      var s' := Apply(cfg, s, a);
      StepTimes(cfg, c, unit, s, a, before, node);
      RunDetects(cfg, c, unit, s', actions[1..], before + Arriving(unit, s, a), node);
      Regroup(before, Arriving(unit, s, a), ArrivalsOver(cfg, unit, s', actions[1..]));
      Regroup(DetectedTimes(cfg.geodesy, c, before, node), DetectedBy(cfg, unit, s, a, node),
              DetectedOver(cfg, unit, s', actions[1..], node));
    }
  }

  lemma NoRouteNoDetection(cfg: Config, unit: real, s: State, a: Action, node: string)
    requires Enabled(s, a) && !Routes(s, a)
    ensures DetectedBy(cfg, unit, s, a, node) == []
  {
  }

  // ---- arrivals come in time order ----

  lemma HandlerClock(cfg: Config, b: Inner, c: nat, h: Handler, admitted: bool)
    requires HandlerReady(b, h)
    ensures HandlerMove(cfg, b, c, h, admitted).0.now == b.now
  {
    hide AfterDrain, AfterAck, PendingOf, ExpiredIds, Purge, RegistrationAck, CapabilityOf, TakenCommand, NodeOf;
    hide PcAfterRoute, RouteMessage, Registry.Upserted, Registry.PositionIn;
  }

  lemma ClockGrows(cfg: Config, s: State, a: Action)
    requires Enabled(s, a)
    ensures s.inner.now <= Apply(cfg, s, a).inner.now
  {
    if a.HandlerStep? {
      HandlerClock(cfg, s.inner, a.c, s.handlers[a.c], a.admitted);
      hide HandlerMove, HandlerReady;
    } else if a.SenderStep? {
      if !s.senders[a.i].pc.SendLive? { BridgeTraces.SenderClock(cfg, s.inner, a.i, s.senders[a.i]); }
      hide SenderMove;
    } else {
      hide ExtractTaskId, Received, AlertAck;
    }
  }

  ghost predicate AllBy(as_: seq<Arrival>, at: real) { forall k :: 0 <= k < |as_| ==> as_[k].at <= at }

  lemma {:induction false} ArrivalsKeepOrder(
    cfg: Config, unit: real, s: State, actions: seq<Action>, before: seq<Arrival>)
    requires unit >= 0.0 && ArrivalsInOrder(before) && AllBy(before, Instant(unit, s.inner.now))
    ensures ArrivalsInOrder(before + ArrivalsOver(cfg, unit, s, actions))
    decreases |actions|
  {
    if actions == [] || !Enabled(s, actions[0]) {
      assert before + [] == before;
    } else {
      var a := actions[0];
      var next := before + Arriving(unit, s, a);
      ClockGrows(cfg, s, a);
      InstantsGrow(unit, s.inner.now, Apply(cfg, s, a).inner.now);
      assert forall k :: 0 <= k < |before| ==> next[k] == before[k];
      assert before + (Arriving(unit, s, a) + ArrivalsOver(cfg, unit, Apply(cfg, s, a), actions[1..]))
          == next + ArrivalsOver(cfg, unit, Apply(cfg, s, a), actions[1..]);
      hide Apply, Enabled, Instant;
      ArrivalsKeepOrder(cfg, unit, Apply(cfg, s, a), actions[1..], next);
    }
  }

  /** End to end on the bridge: in every run whose admissions the limiter decides, whatever the handlers of all
      connections interleave, the detections routed for one node in any window of length w number at most
      burst + rate * w. */
  lemma {:induction false} BoundedOnTheBridge(
    cfg: Config, c: RateLimitConfig, unit: real, actions: seq<Action>, t: State, node: string, from: real, w: real)
    requires Run(cfg, START, actions, t) && Limited(cfg, c, unit, START, actions, [])
    requires c.Enabled() && unit >= 0.0 && w >= 0.0
    ensures CountWithin(DetectedOver(cfg, unit, START, actions, node), from, w) as real
         <= c.burstSize as real + c.maxPerSecond * w
  {
    var arrivals := ArrivalsOver(cfg, unit, START, actions);
    RunDetects(cfg, c, unit, START, actions, [], node);
    ArrivalsKeepOrder(cfg, unit, START, actions, []);
    NoTimes(cfg, c, node, DetectedOver(cfg, unit, START, actions, node));
    assert [] + arrivals == arrivals;
    hide Run, Limited, ArrivalsOver, DetectedOver, CountWithin, DetectedTimes, ArrivalsInOrder;
    BoundedDetections(cfg.geodesy, c, arrivals, node, from, w);
  }

  lemma {:induction false} NoTimes(cfg: Config, c: RateLimitConfig, node: string, ts: seq<real>)
    ensures DetectedTimes(cfg.geodesy, c, [], node) + ts == ts
  {
  }
}
