// What the application is told: each connection reports, in order, what its messages were routed to.

module BridgeReports {
  import opened Base
  import opened Sapient
  import opened TaskQueues
  import opened Bridge
  import opened BridgeTasks
  import BridgeDetections
  import opened BridgeRegistry
  import BridgeTraces
  import Registry
  import Routing
  import Transforms

  // ---- what a connection should report ----

  /** The update as routing made it, before its command was looked up. */
  function Plain(u: SapientUpdate): SapientUpdate { if u.TaskAcknowledged? then u.(commandId := None) else u }

  function PlainAll(us: seq<SapientUpdate>): (ps: seq<SapientUpdate>)
    ensures |ps| == |us|
    ensures forall k :: 0 <= k < |us| ==> ps[k] == Plain(us[k])
  {
    if us == [] then [] else PlainAll(us[..|us| - 1]) + [Plain(us[|us| - 1])]
  }

  lemma {:induction false} PlainPush(us: seq<SapientUpdate>, u: SapientUpdate)
    ensures PlainAll(us + [u]) == PlainAll(us) + [Plain(u)]
  {
    assert (us + [u])[..|us|] == us;
  }

  /** What one message is routed to, if to anything; the bridge never knows a sensor's position. */
  function RoutedTo(g: Transforms.Geodesy, msg: SapientMessage, admitted: bool): seq<SapientUpdate> {
    match Routing.RouteMessage(g, msg, None, admitted)
    case Ok(u) => [u]
    case Err(_) => []
  }

  /** What the messages routed so far amount to, in the order in which they were heard. */
  function Reported(g: Transforms.Geodesy, heard: seq<SapientMessage>, verdicts: seq<bool>): seq<SapientUpdate>
    requires |verdicts| <= |heard|
  {
    if verdicts == [] then []
    else
      var n := |verdicts| - 1;
      Reported(g, heard, verdicts[..n]) + RoutedTo(g, heard[n], verdicts[n])
  }

  lemma {:induction false} ReportedNext(
    g: Transforms.Geodesy, heard: seq<SapientMessage>, verdicts: seq<bool>, admitted: bool)
    requires |verdicts| < |heard|
    ensures Reported(g, heard, verdicts + [admitted])
         == Reported(g, heard, verdicts) + RoutedTo(g, heard[|verdicts|], admitted)
  {
    assert (verdicts + [admitted])[..|verdicts|] == verdicts;
    hide RoutedTo;
  }

  lemma {:induction false} ReportedIgnoresLater(
    g: Transforms.Geodesy, heard: seq<SapientMessage>, verdicts: seq<bool>, msg: SapientMessage)
    requires |verdicts| <= |heard|
    ensures Reported(g, heard + [msg], verdicts) == Reported(g, heard, verdicts)
    decreases |verdicts|
  {
    hide RoutedTo;
    if verdicts != [] { ReportedIgnoresLater(g, heard, verdicts[..|verdicts| - 1], msg); }
  }

  // ---- what it reports ----

  /** The update the handler is about to report. */
  function InHand(pc: HandlerPc): seq<SapientUpdate> {
    match pc
    case UpsertNode(_, u) => [Plain(u)]
    case Dequeue(n, id, status) => [TaskAcknowledged(n, id, None, status)]
    case TakeCommand(n, id, status) => [TaskAcknowledged(n, id, None, status)]
    case Emit(u) => [Plain(u)]
    case _ => []
  }

  predicate AwaitsRouting(pc: HandlerPc) {
    pc.Publish? || pc.SendAck? || pc.DrainQueue? || pc.PurgeExpired? || pc.Replay? || pc.Route?
  }

  predicate SaidGoodbye(h: Handler) { h.pc.Closed? && h.registered.Some? }

  /** Its reports, the final disconnect left aside. */
  function Said(h: Handler): seq<SapientUpdate> {
    if SaidGoodbye(h) && h.emitted != [] then h.emitted[..|h.emitted| - 1] else h.emitted
  }

  predicate VerdictsFit(h: Handler) { |h.heard| == |h.verdicts| + (if AwaitsRouting(h.pc) then 1 else 0) }

  ghost predicate ReportsFit(cfg: Config, h: Handler) {
    VerdictsFit(h) && (SaidGoodbye(h) ==> h.emitted != []) &&
    PlainAll(Said(h)) + InHand(h.pc) == Reported(cfg.geodesy, h.heard, h.verdicts)
  }

  /** Routing puts the message's update in the handler's hand, or nothing when it fails. */
  lemma RouteTakesInHand(g: Transforms.Geodesy, msg: SapientMessage, admitted: bool)
    ensures InHand(PcAfterRoute(Routing.RouteMessage(g, msg, None, admitted))) == RoutedTo(g, msg, admitted)
  {
    hide Transforms.FromRegistration, Transforms.FromStatusReport, Transforms.FromDetectionReport;
  }

  lemma RouteKeepsReports(cfg: Config, b: Inner, c: nat, h: Handler, admitted: bool)
    requires h.pc.Route? && HeardFits(cfg, h) && ReportsFit(cfg, h) && NoPositions(b.registry)
    ensures ReportsFit(cfg, HandlerMove(cfg, b, c, h, admitted).1)
  {
    RouteOutcome(cfg, b, c, h, admitted);
    RouteTakesInHand(cfg.geodesy, h.pc.msg, admitted);
    ReportedNext(cfg.geodesy, h.heard, h.verdicts, admitted);
    hide HandlerMove, PcAfterRoute, Routing.RouteMessage, RoutedTo, Reported, PlainAll, NoPositions, InHand;
    assert InHand(h.pc) == [] by { HoldsNothing(h); }
    assert PlainAll(h.emitted) + [] == PlainAll(h.emitted);
  }

  lemma HoldsNothing(h: Handler)
    requires h.pc.Route?
    ensures InHand(h.pc) == []
  {
  }

  /** The routing step moves on with the message heard last, and records the verdict. */
  lemma RouteOutcome(cfg: Config, b: Inner, c: nat, h: Handler, admitted: bool)
    requires h.pc.Route? && NoPositions(b.registry)
    ensures var pc := PcAfterRoute(Routing.RouteMessage(cfg.geodesy, h.pc.msg, None, admitted));
      HandlerMove(cfg, b, c, h, admitted).1 == h.(pc := pc, verdicts := h.verdicts + [admitted]) &&
      !AwaitsRouting(pc) && !pc.Closed?
  {
    assert Registry.PositionIn(b.registry, h.pc.msg.Node()) == None;
    RouteFits(cfg, b, h, admitted);
    hide PcAfterRoute, Routing.RouteMessage, NoPositions, Registry.PositionIn;
  }

  /** Off the routing step a handler keeps in hand what it has, until it reports it. */
  lemma HandChanges(cfg: Config, b: Inner, c: nat, h: Handler, admitted: bool)
    requires HandlerReady(b, h) && !h.pc.Route?
    ensures var h' := HandlerMove(cfg, b, c, h, admitted).1;
      InHand(h'.pc) == (if h.pc.Emit? then [] else InHand(h.pc)) &&
      h'.verdicts == h.verdicts && AwaitsRouting(h'.pc) == AwaitsRouting(h.pc) &&
      (h'.pc.Closed? <==> h.pc.EmitGone?)
  {
    hide AfterDrain, AfterAck, PendingOf, ExpiredIds, Purge, RegistrationAck, CapabilityOf, TakenCommand, NodeOf;
    hide Registry.Upserted;
  }

  lemma OwnKeepsHeard(cfg: Config, b: Inner, c: nat, h: Handler, admitted: bool)
    requires HandlerReady(b, h)
    ensures var h' := HandlerMove(cfg, b, c, h, admitted).1; h'.heard == h.heard && h'.registered == h.registered
  {
    hide AfterDrain, AfterAck, PendingOf, ExpiredIds, Purge, RegistrationAck, CapabilityOf, TakenCommand, NodeOf;
    hide PcAfterRoute, Registry.Upserted, Registry.PositionIn;
  }

  lemma OwnKeepsReports(cfg: Config, b: Inner, c: nat, h: Handler, admitted: bool)
    requires HandlerReady(b, h) && !h.pc.Route? && PcFits(h) && ReportsFit(cfg, h)
    ensures ReportsFit(cfg, HandlerMove(cfg, b, c, h, admitted).1)
  {
    HandChanges(cfg, b, c, h, admitted);
    OwnKeepsHeard(cfg, b, c, h, admitted);
    BridgeTraces.HandlerEmits(cfg, b, c, h, admitted);
    assert !h.pc.Closed? && (h.pc.EmitGone? ==> h.registered.Some? && InHand(h.pc) == []);
    if h.pc.Emit? {
      PlainPush(h.emitted, h.pc.update);
      assert InHand(h.pc) == [Plain(h.pc.update)];
    } else if h.pc.EmitGone? {
      assert (h.emitted + [NodeDisconnected(NodeOf(h))])[..|h.emitted|] == h.emitted;
    }
    hide HandlerMove, HandlerReady, PlainAll, Reported, NodeOf, AwaitsRouting, InHand, PcFits;
    if h.pc.Emit? {
      assert (PlainAll(h.emitted) + [Plain(h.pc.update)]) + [] == PlainAll(h.emitted) + [Plain(h.pc.update)];
    }
  }

  // ---- the connection's registration ----

  /** The sender of the first Registration. */
  function FirstRegistered(heard: seq<SapientMessage>): Option<string> {
    if heard == [] then None
    else
      var before, last := FirstRegistered(heard[..|heard| - 1]), heard[|heard| - 1];
      if before.Some? then before
      else if last.content.Some? && last.content.value.ContentRegistration? then Some(last.Node())
      else None
  }

  ghost predicate Faithful(cfg: Config, h: Handler) {
    ReportsFit(cfg, h) && h.registered == FirstRegistered(h.heard)
  }

  ghost predicate AllFaithful(cfg: Config, s: State) {
    forall c :: 0 <= c < |s.handlers| ==> Faithful(cfg, s.handlers[c])
  }

  lemma ReceivedKeeps(cfg: Config, h: Handler, msg: SapientMessage)
    requires Faithful(cfg, h) && h.pc.Reading?
    ensures Faithful(cfg, Received(h, msg))
  {
    ReportedIgnoresLater(cfg.geodesy, h.heard, h.verdicts, msg);
    ReceivedRegisters(h, msg);
    var h' := Received(h, msg);
    assert InHand(h.pc) == [] && InHand(h'.pc) == [] && !AwaitsRouting(h.pc) && AwaitsRouting(h'.pc);
    assert Said(h') == Said(h) && h'.heard == h.heard + [msg];
    hide Received, Reported, PlainAll, InHand, AwaitsRouting, FirstRegistered;
  }

  lemma ReceivedRegisters(h: Handler, msg: SapientMessage)
    requires h.registered == FirstRegistered(h.heard)
    ensures Received(h, msg).registered == FirstRegistered(Received(h, msg).heard)
  {
    assert (h.heard + [msg])[..|h.heard|] == h.heard;
  }

  lemma HangupKeeps(cfg: Config, h: Handler)
    requires Faithful(cfg, h) && h.pc.Reading?
    ensures Faithful(cfg, h.(pc := if h.registered.Some? then LeaveConnections else Closed))
  {
    hide Reported, PlainAll;
  }

  lemma ChannelKeeps(cfg: Config, h: Handler, ch: Channel)
    requires Faithful(cfg, h)
    ensures Faithful(cfg, h.(channel := ch))
  {
    hide Reported, PlainAll, FirstRegistered;
  }

  lemma FreshIsFaithful(cfg: Config)
    ensures Faithful(cfg, FRESH_HANDLER)
  {
  }

  lemma HandlerKeepsFaith(cfg: Config, b: Inner, c: nat, h: Handler, admitted: bool)
    requires HandlerReady(b, h) && PcFits(h) && HeardFits(cfg, h) && Faithful(cfg, h) && NoPositions(b.registry)
    ensures Faithful(cfg, HandlerMove(cfg, b, c, h, admitted).1)
  {
    if h.pc.Route? { RouteKeepsReports(cfg, b, c, h, admitted); } else { OwnKeepsReports(cfg, b, c, h, admitted); }
    OwnKeepsHeard(cfg, b, c, h, admitted);
    hide HandlerMove, HandlerReady, ReportsFit, FirstRegistered;
  }

  lemma FaithStep(cfg: Config, s: State, a: Action)
    requires Enabled(s, a) && AllFaithful(cfg, s) && AllHeardFit(cfg, s) && NoPositions(s.inner.registry)
    requires forall c :: 0 <= c < |s.handlers| ==> PcFits(s.handlers[c])
    ensures AllFaithful(cfg, Apply(cfg, s, a))
  {
    hide SenderMove, Faithful, NoPositions, Routing.ExtractTaskId, AlertAck;
    match a
    case HandlerStep(c, admitted) =>
      HandlerKeepsFaith(cfg, s.inner, c, s.handlers[c], admitted);
      hide HandlerMove, HandlerReady, HeardFits, PcFits;
    case SenderStep(i) =>
      if s.senders[i].pc.SendLive? {
        var h := s.handlers[s.senders[i].pc.conn];
        ChannelKeeps(cfg, h, h.channel.Sent(Offer(FromSender(i), s.senders[i].msg)));
      }
    case AlertStep(k) =>
      if s.alerts[k].pc.AlertSend? {
        var h := s.handlers[s.alerts[k].pc.conn];
        ChannelKeeps(cfg, h, h.channel.Sent(Offer(FromAlert(k), AlertAck(cfg, s.alerts[k]))));
      }
    case Receive(c, msg) =>
      ReceivedKeeps(cfg, s.handlers[c], msg);
      hide Received;
    case Hangup(c) => HangupKeeps(cfg, s.handlers[c]);
    case WriterStep(c) => ChannelKeeps(cfg, s.handlers[c], Apply(cfg, s, a).handlers[c].channel);
    case WriterFail(c) => ChannelKeeps(cfg, s.handlers[c], Apply(cfg, s, a).handlers[c].channel);
    case Accept => FreshIsFaithful(cfg);
    case _ =>
  }

  ghost predicate Inv(cfg: Config, s: State) {
    Always(s) && AllHeardFit(cfg, s) && NoPositions(s.inner.registry) && AllFaithful(cfg, s)
  }

  lemma AlwaysPcFits(s: State)
    requires Always(s)
    ensures forall c :: 0 <= c < |s.handlers| ==> PcFits(s.handlers[c])
  {
  }

  lemma {:induction false} InvHolds(cfg: Config, s: State, actions: seq<Action>, t: State)
    requires Inv(cfg, s) && Run(cfg, s, actions, t)
    ensures Inv(cfg, t)
    decreases |actions|
  {
    if actions != [] {
      AlwaysPcFits(s);
      hide Apply, Enabled, Always, AllHeardFit, NoPositions, AllFaithful, PcFits;
      AlwaysStep(cfg, s, actions[0]);
      HeardStep(cfg, s, actions[0]);
      PositionsStep(cfg, s, actions[0]);
      FaithStep(cfg, s, actions[0]);
      InvHolds(cfg, Apply(cfg, s, actions[0]), actions[1..], t);
    }
  }

  /** Every connection tells the application what it heard: its final disconnect left aside, its reports and
      the one it has in hand are, in order, the updates that its messages were routed to, with the commands
      of acknowledgements filled in. It is registered as the sender of its first Registration, if it heard
      one. */
  lemma {:induction false} ReportsWhatItHeard(cfg: Config, actions: seq<Action>, t: State, c: nat)
    requires Run(cfg, START, actions, t) && c < |t.handlers|
    ensures var h := t.handlers[c];
      |h.heard| == |h.verdicts| + (if AwaitsRouting(h.pc) then 1 else 0) &&
      PlainAll(Said(h)) + InHand(h.pc) == Reported(cfg.geodesy, h.heard, h.verdicts) &&
      h.registered == FirstRegistered(h.heard)
  {
    StartFaithful(cfg);
    InvHolds(cfg, START, actions, t);
    assert Faithful(cfg, t.handlers[c]);
    hide Run, Always, AllHeardFit, NoPositions, PlainAll, Reported;
  }

  lemma StartFaithful(cfg: Config)
    ensures Inv(cfg, START)
  {
  }

  // ---- the detections that reach the application ----

  function DetectionBit(node: string): SapientUpdate -> nat {
    (u: SapientUpdate) => if u.Detected? && u.nodeId == node then 1 else 0
  }

  function Detections(us: seq<SapientUpdate>, node: string): nat { Sum(DetectionBit(node), us) }

  function DetectionsInHand(node: string): Handler -> nat { (h: Handler) => Detections(InHand(h.pc), node) }

  /** Detections of the node on the update channel or about to be. */
  function Reaching(s: State, node: string): nat {
    Detections(s.inner.updates, node) + Sum(DetectionsInHand(node), s.handlers)
  }

  lemma OneDetection(u: SapientUpdate, node: string)
    ensures Detections([u], node) == (if u.Detected? && u.nodeId == node then 1 else 0)
    ensures Detections([], node) == 0
  {
    assert Sum(DetectionBit(node), [u][1..]) == 0;
  }

  lemma DetectionsPush(us: seq<SapientUpdate>, u: SapientUpdate, node: string)
    ensures Detections(us + [u], node) == Detections(us, node) + (if u.Detected? && u.nodeId == node then 1 else 0)
  {
    SumPush(DetectionBit(node), us, u);
    hide Sum;
  }

  /** How a handler's own step changes what it has in hand and what it has sent. */
  lemma OwnDetections(cfg: Config, b: Inner, c: nat, h: Handler, admitted: bool, node: string)
    requires HandlerReady(b, h)
    ensures var (b', h') := HandlerMove(cfg, b, c, h, admitted);
      Detections(b'.updates, node) + DetectionsInHand(node)(h')
        == Detections(b.updates, node) + DetectionsInHand(node)(h)
           + (if h.pc.Route? && BridgeDetections.ReportsTrack(h'.pc, node) then 1 else 0)
  {
    var (b', h') := HandlerMove(cfg, b, c, h, admitted);
    OneDetection(Ignored, node);
    if h.pc.Route? {
      RouteFits(cfg, b, h, admitted);
      RouteNames(cfg, b, h, admitted);
      if InHand(h'.pc) != [] { OneDetection(InHand(h'.pc)[0], node); }
      hide PcAfterRoute;
    } else {
      BridgeTraces.HandlerEmits(cfg, b, c, h, admitted);
      HandChanges(cfg, b, c, h, admitted);
      hide HandlerMove, HandlerReady;
      if h.pc.Emit? { DetectionsPush(b.updates, h.pc.update, node); OneDetection(Plain(h.pc.update), node); }
      if h.pc.EmitGone? { DetectionsPush(b.updates, NodeDisconnected(NodeOf(h)), node); }
      if InHand(h.pc) != [] { OneDetection(InHand(h.pc)[0], node); }
    }
    hide Detections, NodeOf;
  }

  lemma RouteNames(cfg: Config, b: Inner, h: Handler, admitted: bool)
    requires h.pc.Route?
    ensures var sensor := Registry.PositionIn(b.registry, h.pc.msg.Node());
      var pc := PcAfterRoute(Routing.RouteMessage(cfg.geodesy, h.pc.msg, sensor, admitted));
      pc.Emit? ==> !pc.update.Detected?
  {
    hide Routing.RouteMessage, Registry.PositionIn;
  }

  /** One handler changes, but has the same in hand, and nothing is sent. */
  lemma QuietReaching(s: State, t: State, c: nat, node: string)
    requires c < |s.handlers| && |t.handlers| == |s.handlers| && t.handlers == s.handlers[c := t.handlers[c]]
    requires InHand(t.handlers[c].pc) == InHand(s.handlers[c].pc) && t.inner.updates == s.inner.updates
    ensures Reaching(t, node) == Reaching(s, node)
  {
    SumUpdate(DetectionsInHand(node), s.handlers, c, t.handlers[c]);
    hide Sum, Detections, InHand;
  }

  lemma SameReaching(s: State, t: State, node: string)
    requires t.handlers == s.handlers && t.inner.updates == s.inner.updates
    ensures Reaching(t, node) == Reaching(s, node)
  {
  }

  lemma NewcomerReaching(s: State, t: State, node: string)
    requires t.handlers == s.handlers + [FRESH_HANDLER] && t.inner.updates == s.inner.updates
    ensures Reaching(t, node) == Reaching(s, node)
  {
    SumPush(DetectionsInHand(node), s.handlers, FRESH_HANDLER);
    OneDetection(Ignored, node);
    hide Sum, Detections;
  }

  lemma HandlerReaching(cfg: Config, unit: real, s: State, c: nat, admitted: bool, node: string)
    requires Enabled(s, HandlerStep(c, admitted))
    ensures Reaching(HandlerApply(cfg, s, c, admitted), node)
         == Reaching(s, node) + |BridgeDetections.DetectedBy(cfg, unit, s, HandlerStep(c, admitted), node)|
  {
    var t := HandlerApply(cfg, s, c, admitted);
    OwnDetections(cfg, s.inner, c, s.handlers[c], admitted, node);
    SumUpdate(DetectionsInHand(node), s.handlers, c, t.handlers[c]);
    hide HandlerMove, HandlerReady, Sum, Detections, InHand, BridgeDetections.ReportsTrack, BridgeDetections.Instant;
  }

  lemma OtherReaching(cfg: Config, s: State, a: Action, node: string)
    requires Enabled(s, a) && !a.HandlerStep?
    ensures Reaching(Apply(cfg, s, a), node) == Reaching(s, node)
  {
    var t := Apply(cfg, s, a);
    hide Reaching, Routing.ExtractTaskId, AlertAck;
    match a
    case SenderStep(i) =>
      if s.senders[i].pc.SendLive? {
        QuietReaching(s, t, s.senders[i].pc.conn, node);
      } else {
        BridgeTraces.SenderKeepsUpdates(cfg, s.inner, i, s.senders[i]);
        hide SenderMove;
        SameReaching(s, t, node);
      }
    case AlertStep(k) =>
      if s.alerts[k].pc.AlertSend? {
        QuietReaching(s, t, s.alerts[k].pc.conn, node);
      } else {
        SameReaching(s, t, node);
      }
    case Receive(c, _) => QuietReaching(s, t, c, node);
    case Hangup(c) => QuietReaching(s, t, c, node);
    case WriterStep(c) => QuietReaching(s, t, c, node);
    case WriterFail(c) => QuietReaching(s, t, c, node);
    case Accept => NewcomerReaching(s, t, node);
    case _ => SameReaching(s, t, node);
  }

  lemma {:induction false} ReachingCounts(
    cfg: Config, unit: real, s: State, actions: seq<Action>, t: State, node: string)
    requires Run(cfg, s, actions, t)
    ensures Reaching(t, node) == Reaching(s, node) + |BridgeDetections.DetectedOver(cfg, unit, s, actions, node)|
    decreases |actions|
  {
    if actions != [] {
      var a := actions[0];
      if a.HandlerStep? {
        HandlerReaching(cfg, unit, s, a.c, a.admitted, node);
      } else {
        OtherReaching(cfg, s, a, node);
        BridgeDetections.NoRouteNoDetection(cfg, unit, s, a, node);
      }
      ReachingCounts(cfg, unit, Apply(cfg, s, a), actions[1..], t, node);
      hide HandlerMove, HandlerReady, Reaching, BridgeDetections.DetectedBy;
    }
  }

  /** No detection is lost or made up on the way: those of a node that the application was sent or that a
      handler is about to send number exactly those that routing let through. */
  lemma {:induction false} DetectionsReachTheApplication(
    cfg: Config, unit: real, actions: seq<Action>, t: State, node: string)
    requires Run(cfg, START, actions, t)
    ensures Detections(t.inner.updates, node) + Sum(DetectionsInHand(node), t.handlers)
         == |BridgeDetections.DetectedOver(cfg, unit, START, actions, node)|
  {
    ReachingCounts(cfg, unit, START, actions, t, node);
    OneDetection(Ignored, node);
    hide Run;
  }
}
