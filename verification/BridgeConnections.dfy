// Connections as their peers see them: what is offered to whom and in which order, and when a connection's
// sender is the published one.

module BridgeConnections {
  import opened Base
  import opened Sapient
  import opened TaskQueues
  import opened Bridge
  import opened BridgeTasks
  import opened BridgeTraces
  import BridgeLocks
  import Registry
  import Routing

  // ---- what a step does to one connection ----

  predicate Touches(a: Action, c: nat) { (a.HandlerStep? || a.Receive? || a.Hangup?) && a.c == c }

  predicate LiveTask(s: State, a: Action, c: nat) {
    a.SenderStep? && a.i < |s.senders| && s.senders[a.i].pc == SendLive(c)
  }

  predicate LiveAlert(s: State, a: Action, c: nat) {
    a.AlertStep? && a.k < |s.alerts| && s.alerts[a.k].pc == AlertSend(c)
  }

  predicate LiveSend(s: State, a: Action, c: nat) { LiveTask(s, a, c) || LiveAlert(s, a, c) }

  function Added(cfg: Config, s: State, a: Action, c: nat): seq<Offer> {
    if LiveTask(s, a, c) then [Offer(FromSender(a.i), s.senders[a.i].msg)]
    else if LiveAlert(s, a, c) then [Offer(FromAlert(a.k), AlertAck(cfg, s.alerts[a.k]))]
    else []
  }

  /** Other threads reach a connection only through live sends and its writer. */
  lemma OtherStep(cfg: Config, s: State, a: Action, c: nat)
    requires Enabled(s, a) && c < |s.handlers| && !Touches(a, c)
    ensures var t := Apply(cfg, s, a);
      c < |t.handlers| && t.handlers[c] == s.handlers[c].(channel := t.handlers[c].channel) &&
      t.handlers[c].channel.offers == s.handlers[c].channel.offers + Added(cfg, s, a, c)
  {
    hide SenderMove, HandlerMove, Received, Routing.ExtractTaskId;
  }

  /** A connection's own steps, as far as its offers and its registration go. */
  lemma OwnStep(cfg: Config, b: Inner, c: nat, h: Handler, admitted: bool)
    requires HandlerReady(b, h)
    ensures var h' := HandlerMove(cfg, b, c, h, admitted).1;
      h'.registered == h.registered && h'.channel.offers == h.channel.offers + OwnOffer(cfg, h) &&
      (h'.pc.SendAck? <==> h.pc.Publish?) && !h'.pc.Publish?
  {
    if h.pc.Route? { RouteFits(cfg, b, h, admitted); }
    hide AfterDrain, AfterAck, PendingOf, ExpiredIds, Purge, RegistrationAck, CapabilityOf, TakenCommand, NodeOf;
    hide PcAfterRoute, Registry.Upserted, Registry.PositionIn;
  }

  // ---- the first offer ----

  /** Nothing is offered before the connection is published; others may offer while the acknowledgement waits;
      and once that is out, something has been offered. */
  predicate FirstFits(h: Handler) {
    PcFits(h) &&
    (if !AckPending(h) then h.channel.offers != []
     else if h.pc.SendAck? then h.channel.offers != [] ==> h.channel.offers[0].origin.Live()
     else h.channel.offers == [])
  }

  ghost predicate AllFirst(s: State) { forall c :: 0 <= c < |s.handlers| ==> FirstFits(s.handlers[c]) }

  predicate LiveFirst(h: Handler) { h.channel.offers != [] && h.channel.offers[0].origin.Live() }

  /** A live send to a connection that waits to queue its acknowledgement. */
  predicate Overtakes(s: State, a: Action, c: nat) {
    LiveSend(s, a, c) && c < |s.handlers| && s.handlers[c].pc.SendAck?
  }

  lemma OwnFirst(cfg: Config, b: Inner, c: nat, h: Handler, admitted: bool)
    requires HandlerReady(b, h) && FirstFits(h)
    ensures var h' := HandlerMove(cfg, b, c, h, admitted).1; FirstFits(h') && (LiveFirst(h') <==> LiveFirst(h))
  {
    OwnStep(cfg, b, c, h, admitted);
    OwnEffect(cfg, b, c, h, admitted);
    hide HandlerMove, HandlerReady, RegistrationAck, NodeOf;
  }

  /** A live send always aims at a connection past its publication. */
  lemma LiveSendTarget(s: State, a: Action, c: nat)
    requires Always(s) && LiveSend(s, a, c)
    ensures c < |s.handlers| && !s.handlers[c].pc.Publish? &&
      s.handlers[c].registered == Some(if LiveTask(s, a, c) then s.senders[a.i].node else s.alerts[a.k].node)
  {
    assert ConnectionsOk(s) && TargetsOk(s);
  }

  /** Only an overtaking live send comes first. */
  lemma FirstStep(cfg: Config, s: State, a: Action, c: nat)
    requires Enabled(s, a) && Always(s) && AllFirst(s) && c < |s.handlers|
    ensures var h, h' := s.handlers[c], Apply(cfg, s, a).handlers[c];
      FirstFits(h') && (LiveFirst(h') <==> LiveFirst(h) || Overtakes(s, a, c))
  {
    var h := s.handlers[c];
    assert FirstFits(h);
    if !Touches(a, c) {
      hide Apply, Enabled, AllFirst, FirstFits, LiveFirst;
      OthersFirst(cfg, s, a, c);
    } else if a.HandlerStep? {
      OwnFirst(cfg, s.inner, c, h, a.admitted);
      hide HandlerMove, HandlerReady, Always, AllFirst, FirstFits;
    } else {
      hide Apply, Enabled, Always, AllFirst, FirstFits, LiveFirst;
      ReadingFirst(cfg, s, a, c);
    }
  }

  lemma OthersFirst(cfg: Config, s: State, a: Action, c: nat)
    requires Enabled(s, a) && Always(s) && c < |s.handlers| && !Touches(a, c) && FirstFits(s.handlers[c])
    ensures var h, h' := s.handlers[c], Apply(cfg, s, a).handlers[c];
      FirstFits(h') && (LiveFirst(h') <==> LiveFirst(h) || Overtakes(s, a, c))
  {
    if LiveSend(s, a, c) { LiveSendTarget(s, a, c); }
    OtherStep(cfg, s, a, c);
    hide Apply, Enabled, Always, AlertAck;
  }

  lemma ReadingFirst(cfg: Config, s: State, a: Action, c: nat)
    requires Enabled(s, a) && Touches(a, c) && !a.HandlerStep? && c < |s.handlers| && FirstFits(s.handlers[c])
    ensures FirstFits(Apply(cfg, s, a).handlers[c])
    ensures LiveFirst(Apply(cfg, s, a).handlers[c]) <==> LiveFirst(s.handlers[c])
  {
  }

  lemma HandlersOnlyAdded(cfg: Config, s: State, a: Action)
    requires Enabled(s, a)
    ensures var t := Apply(cfg, s, a);
      |s.handlers| <= |t.handlers| && forall c :: |s.handlers| <= c < |t.handlers| ==> t.handlers[c] == FRESH_HANDLER
  {
    hide SenderMove, HandlerMove, Received, Routing.ExtractTaskId;
  }

  lemma AllFirstStep(cfg: Config, s: State, a: Action)
    requires Enabled(s, a) && Always(s) && AllFirst(s)
    ensures AllFirst(Apply(cfg, s, a))
  {
    var t := Apply(cfg, s, a);
    HandlersOnlyAdded(cfg, s, a);
    assert FirstFits(FRESH_HANDLER);
    hide Apply, Enabled, Always, FirstFits;
    forall c | 0 <= c < |t.handlers| ensures FirstFits(t.handlers[c]) {
      if c < |s.handlers| { FirstStep(cfg, s, a, c); }
    }
  }

  /** Some step of the run queues a live message on connection `c` while its acknowledgement waits. */
  ghost predicate Overtaken(cfg: Config, s: State, actions: seq<Action>, c: nat)
    decreases |actions|
  {
    actions != [] && Enabled(s, actions[0]) &&
    (Overtakes(s, actions[0], c) || Overtaken(cfg, Apply(cfg, s, actions[0]), actions[1..], c))
  }

  predicate StartsLive(s: State, c: nat) { c < |s.handlers| && LiveFirst(s.handlers[c]) }

  lemma StartsLiveStep(cfg: Config, s: State, a: Action, c: nat)
    requires Enabled(s, a) && Always(s) && AllFirst(s)
    ensures StartsLive(Apply(cfg, s, a), c) <==> StartsLive(s, c) || Overtakes(s, a, c)
  {
    HandlersOnlyAdded(cfg, s, a);
    if c < |s.handlers| { FirstStep(cfg, s, a, c); }
    hide Apply, Enabled, Always, AllFirst;
  }

  lemma {:induction false} StartsLiveIff(cfg: Config, s: State, actions: seq<Action>, t: State, c: nat)
    requires Run(cfg, s, actions, t) && Always(s) && AllFirst(s)
    ensures AllFirst(t) && (StartsLive(t, c) <==> StartsLive(s, c) || Overtaken(cfg, s, actions, c))
    decreases |actions|
  {
    if actions != [] {
      StartsLiveStep(cfg, s, actions[0], c);
      AlwaysStep(cfg, s, actions[0]);
      AllFirstStep(cfg, s, actions[0]);
      hide Apply, Enabled, Always, AllFirst, StartsLive, Overtakes;
      StartsLiveIff(cfg, Apply(cfg, s, actions[0]), actions[1..], t, c);
    }
  }

  /** In every reachable state, a connection that is not published yet has been offered nothing; and the first
      offer of one that has queued its RegistrationAck is that acknowledgement if and only if no `send_task` and
      no `send_alert_ack` queued its message while the acknowledgement waited. */
  lemma {:induction false} AckComesFirstIff(cfg: Config, actions: seq<Action>, t: State, c: nat)
    requires Run(cfg, START, actions, t) && c < |t.handlers|
    ensures t.handlers[c].registered.None? || t.handlers[c].pc.Publish? ==> t.handlers[c].channel.offers == []
    ensures var h := t.handlers[c];
      AckPending(h) ||
      (h.channel.offers != [] &&
       (h.channel.offers[0] == Offer(FromAck, RegistrationAck(cfg, NodeOf(h))) <==> !Overtaken(cfg, START, actions, c)))
  {
    StartsLiveIff(cfg, START, actions, t, c);
    var h := t.handlers[c];
    assert FirstFits(h);
    if !AckPending(h) {
      BridgeTraces.StartInv(cfg);
      BridgeTraces.InvHolds(cfg, START, actions, t);
      assert Shaped(cfg, h);
      OwnStartsFirst(h.channel.offers);
    }
    hide Run, Overtaken, Own, Replays, AllFirst, Always, RegistrationAck;
  }

  /** If the first offer is the handler's own, it is the first of its own offers. */
  lemma {:induction false} OwnStartsFirst(os: seq<Offer>)
    requires os != []
    ensures !os[0].origin.Live() ==> Own(os) != [] && Own(os)[0] == os[0]
  {
    if |os| > 1 { OwnStartsFirst(os[..|os| - 1]); }
    else { assert Own(os[..0]) == []; }
  }

  // ---- every offer is meant for the connection's node ----

  /** A `send_task` for this node carries this message. */
  ghost predicate TaskFor(s: State, node: string, msg: SapientMessage) {
    exists i :: 0 <= i < |s.senders| && s.senders[i].node == node && s.senders[i].msg == msg
  }

  ghost predicate Meant(cfg: Config, s: State, node: string, o: Offer) {
    match o.origin
    case FromAck => o.msg == RegistrationAck(cfg, node)
    case FromReplay => TaskFor(s, node, o.msg)
    case FromSender(i) => i < |s.senders| && s.senders[i].node == node && s.senders[i].msg == o.msg
    case FromAlert(k) => k < |s.alerts| && s.alerts[k].node == node && o.msg == AlertAck(cfg, s.alerts[k])
  }

  ghost predicate OffersMeant(cfg: Config, s: State, h: Handler) {
    (forall o :: o in h.channel.offers ==> h.registered.Some? && Meant(cfg, s, h.registered.value, o)) &&
    (forall t :: t in Rest(h) ==> h.registered.Some? && TaskFor(s, h.registered.value, t.msg))
  }

  ghost predicate AllMeant(cfg: Config, s: State) {
    forall c :: 0 <= c < |s.handlers| ==> OffersMeant(cfg, s, s.handlers[c])
  }

  lemma GivenStays(s: State, t: State, node: string, msg: SapientMessage)
    requires Advances(s, t) && TaskFor(s, node, msg)
    ensures TaskFor(t, node, msg)
  {
    var i :| 0 <= i < |s.senders| && s.senders[i].node == node && s.senders[i].msg == msg;
    assert t.senders[i].node == s.senders[i].node && t.senders[i].msg == s.senders[i].msg;
  }

  lemma MeantStays(cfg: Config, s: State, t: State, h: Handler)
    requires Advances(s, t) && AlertsAdvance(s, t) && OffersMeant(cfg, s, h)
    ensures OffersMeant(cfg, t, h)
  {
    forall o | o in h.channel.offers ensures h.registered.Some? && Meant(cfg, t, h.registered.value, o) {
      assert Meant(cfg, s, h.registered.value, o);
      if o.origin.FromReplay? { GivenStays(s, t, h.registered.value, o.msg); }
    }
    forall u | u in Rest(h) ensures h.registered.Some? && TaskFor(t, h.registered.value, u.msg) {
      GivenStays(s, t, h.registered.value, u.msg);
    }
  }

  /** The tasks of a node's queue were given for that node. */
  lemma PendingGiven(s: State, node: string)
    requires QueuesSent(s)
    ensures forall t :: t in PendingOf(s.inner.queues, node) ==> TaskFor(s, node, t.msg)
  {
    forall t | t in PendingOf(s.inner.queues, node) ensures TaskFor(s, node, t.msg) {
      assert Sent(s, node, t);
    }
  }

  /** What is left to replay only shrinks, except where the snapshot is taken. */
  lemma RestEffect(cfg: Config, b: Inner, c: nat, h: Handler, admitted: bool)
    requires HandlerReady(b, h) && PcFits(h)
    ensures var (b', h') := HandlerMove(cfg, b, c, h, admitted);
      if BeforeSnapshot(h) && !BeforeSnapshot(h') then
        h.registered.Some? && h'.snapshot == Rest(h') == PendingOf(b'.queues, NodeOf(h))
      else h'.snapshot == h.snapshot && (Rest(h') == [] || (Rest(h) != [] && Rest(h') == Rest(h)[1..]))
  {
    if h.pc.Route? { RouteFits(cfg, b, h, admitted); }
    hide AfterDrain, AfterAck, PendingOf, ExpiredIds, Purge, RegistrationAck, CapabilityOf, TakenCommand, NodeOf;
    hide PcAfterRoute, Registry.Upserted, Registry.PositionIn;
  }

  lemma OwnMeant(cfg: Config, s: State, c: nat, admitted: bool)
    requires Enabled(s, HandlerStep(c, admitted)) && Always(s) && PcFits(s.handlers[c]) &&
      OffersMeant(cfg, s, s.handlers[c])
    ensures var t := Apply(cfg, s, HandlerStep(c, admitted)); OffersMeant(cfg, t, t.handlers[c])
  {
    var h, t := s.handlers[c], Apply(cfg, s, HandlerStep(c, admitted));
    QueuesSentStep(cfg, s, HandlerStep(c, admitted));
    PendingGiven(t, NodeOf(h));
    OwnStep(cfg, s.inner, c, h, admitted);
    RestEffect(cfg, s.inner, c, h, admitted);
    SendersAdvance(cfg, s, HandlerStep(c, admitted));
    AlertsOnlyAdvance(cfg, s, HandlerStep(c, admitted));
    MeantStays(cfg, s, t, h);
    hide HandlerMove, HandlerReady, Always, Advances, QueuesSent, PendingOf, TaskFor, RegistrationAck;
    if h.pc.Replay? && h.pc.rest != [] { assert h.pc.rest[0] in Rest(h); }
  }

  /** What others offer on a connection is meant for its node. */
  lemma OthersMeant(cfg: Config, s: State, a: Action, c: nat)
    requires Enabled(s, a) && Always(s) && c < |s.handlers| && !Touches(a, c)
    requires Advances(s, Apply(cfg, s, a)) && AlertsAdvance(s, Apply(cfg, s, a))
    requires OffersMeant(cfg, Apply(cfg, s, a), s.handlers[c])
    ensures OffersMeant(cfg, Apply(cfg, s, a), Apply(cfg, s, a).handlers[c])
  {
    var t := Apply(cfg, s, a);
    OtherStep(cfg, s, a, c);
    if LiveSend(s, a, c) { LiveSendTarget(s, a, c); }
    hide Apply, Enabled, Always, TaskFor, RegistrationAck;
    if LiveTask(s, a, c) {
      assert t.senders[a.i].node == s.senders[a.i].node && t.senders[a.i].msg == s.senders[a.i].msg;
    }
    if LiveAlert(s, a, c) { assert t.alerts[a.k] == s.alerts[a.k].(pc := t.alerts[a.k].pc); }
  }

  lemma MeantStep(cfg: Config, s: State, a: Action, c: nat)
    requires Enabled(s, a) && Always(s) && AllFirst(s) && AllMeant(cfg, s) && c < |s.handlers|
    ensures OffersMeant(cfg, Apply(cfg, s, a), Apply(cfg, s, a).handlers[c])
  {
    var h, t := s.handlers[c], Apply(cfg, s, a);
    assert FirstFits(h) && OffersMeant(cfg, s, h);
    SendersAdvance(cfg, s, a);
    AlertsOnlyAdvance(cfg, s, a);
    MeantStays(cfg, s, t, h);
    if !Touches(a, c) {
      hide Apply, Enabled, AllFirst, FirstFits, AllMeant, OffersMeant;
      OthersMeant(cfg, s, a, c);
    } else if a.HandlerStep? {
      OwnMeant(cfg, s, c, a.admitted);
      hide Apply, Enabled, Always, AllFirst, FirstFits, AllMeant, OffersMeant;
    } else {
      hide Apply, Enabled, Always, AllFirst, FirstFits, AllMeant, OffersMeant, Advances;
      ReadingMeant(cfg, s, a, c);
    }
  }

  /** Reading a message or hanging up offers nothing. */
  lemma ReadingMeant(cfg: Config, s: State, a: Action, c: nat)
    requires Enabled(s, a) && Touches(a, c) && !a.HandlerStep? && c < |s.handlers|
    requires FirstFits(s.handlers[c]) && OffersMeant(cfg, Apply(cfg, s, a), s.handlers[c])
    ensures OffersMeant(cfg, Apply(cfg, s, a), Apply(cfg, s, a).handlers[c])
  {
    hide Meant, TaskFor;
  }

  lemma AllMeantStep(cfg: Config, s: State, a: Action)
    requires Enabled(s, a) && Always(s) && AllFirst(s) && AllMeant(cfg, s)
    ensures AllMeant(cfg, Apply(cfg, s, a))
  {
    var t := Apply(cfg, s, a);
    HandlersOnlyAdded(cfg, s, a);
    assert OffersMeant(cfg, t, FRESH_HANDLER);
    hide Apply, Enabled, Always, AllFirst, OffersMeant;
    forall c | 0 <= c < |t.handlers| ensures OffersMeant(cfg, t, t.handlers[c]) {
      if c < |s.handlers| { MeantStep(cfg, s, a, c); }
    }
  }

  lemma {:induction false} AllMeantHolds(cfg: Config, s: State, actions: seq<Action>, t: State)
    requires Run(cfg, s, actions, t) && Always(s) && AllFirst(s) && AllMeant(cfg, s)
    ensures AllMeant(cfg, t)
    decreases |actions|
  {
    if actions != [] {
      AlwaysStep(cfg, s, actions[0]);
      AllFirstStep(cfg, s, actions[0]);
      AllMeantStep(cfg, s, actions[0]);
      hide Apply, Enabled, Always, AllFirst, AllMeant;
      AllMeantHolds(cfg, Apply(cfg, s, actions[0]), actions[1..], t);
    }
  }

  /** A `send_alert_ack` for this node carries this message. */
  ghost predicate AlertFor(cfg: Config, s: State, node: string, msg: SapientMessage) {
    exists k :: 0 <= k < |s.alerts| && s.alerts[k].node == node &&
      msg.content == Some(ContentAlertAck(s.alerts[k].alertId))
  }

  predicate Addressed(cfg: Config, node: string, msg: SapientMessage) {
    msg.nodeId == Some(cfg.nodeId) && msg.destinationId == Some(node)
  }

  ghost predicate Belongs(cfg: Config, s: State, node: string, o: Offer) {
    match o.origin
    case FromAck => Addressed(cfg, node, o.msg) && o.msg.content == Some(ContentRegistrationAck)
    case FromReplay => TaskFor(s, node, o.msg)
    case FromSender(_) => TaskFor(s, node, o.msg)
    case FromAlert(_) => Addressed(cfg, node, o.msg) && AlertFor(cfg, s, node, o.msg)
  }

  /** No misdelivery: in every reachable state everything offered on a connection, and everything it still has
      to replay, is its own node's RegistrationAck or the message of a `send_task` or a `send_alert_ack` for
      that node. */
  lemma {:induction false} OnlyItsOwnOffers(cfg: Config, actions: seq<Action>, t: State, c: nat)
    requires Run(cfg, START, actions, t) && c < |t.handlers|
    ensures var h := t.handlers[c];
      (h.registered.None? ==> h.channel.offers == []) &&
      (forall o :: o in h.channel.offers ==> Belongs(cfg, t, h.registered.value, o)) &&
      (forall u :: u in Rest(h) ==> h.registered.Some? && TaskFor(t, h.registered.value, u.msg))
  {
    AllMeantHolds(cfg, START, actions, t);
    var h := t.handlers[c];
    assert OffersMeant(cfg, t, h);
    hide Run, AllMeant;
    forall o | o in h.channel.offers ensures Belongs(cfg, t, h.registered.value, o) {
      assert Meant(cfg, t, h.registered.value, o);
    }
    if h.channel.offers != [] { assert h.channel.offers[0] in h.channel.offers; }
  }

  // ---- the snapshot is the node's queue at the drain ----

  /** From the drain on: the drained queues stand still until the purge is done, then the snapshot is fixed. */
  ghost predicate SnapshotIs(s: State, c: nat, drained: Queues) {
    c < |s.handlers| && s.handlers[c].registered.Some? &&
    (if s.handlers[c].pc.PurgeExpired? then s.inner.queues == drained
     else !BeforeSnapshot(s.handlers[c]) && s.handlers[c].snapshot == PendingOf(drained, NodeOf(s.handlers[c])))
  }

  lemma DrainTaken(cfg: Config, s: State, c: nat, admitted: bool)
    requires Enabled(s, HandlerStep(c, admitted)) && s.handlers[c].pc.DrainQueue? && s.handlers[c].registered.Some?
    ensures SnapshotIs(Apply(cfg, s, HandlerStep(c, admitted)), c, AfterDrain(s.inner.queues, s.inner.now))
  {
    hide AfterDrain, PendingOf, ExpiredIds, Purge;
  }

  /** While a handler holds the queues nobody else changes them. */
  lemma QueuesStandStill(cfg: Config, s: State, a: Action, c: nat)
    requires Enabled(s, a) && BridgeLocks.LocksFit(s) && c < |s.handlers| && s.handlers[c].pc.PurgeExpired?
    ensures Apply(cfg, s, a).inner.queues == s.inner.queues
  {
    assert BridgeLocks.HandlerFits(s.inner, c, s.handlers[c]);
    hide BridgeLocks.LocksFit;
    if a.HandlerStep? {
      HandlerQueues(cfg, s.inner, a.c, s.handlers[a.c], a.admitted);
      hide HandlerMove, AfterDrain, AfterAck, PendingOf, NodeOf;
    } else {
      hide LostByEnqueue, QueuesAfterEnqueue, Purge, Routing.ExtractTaskId;
    }
  }

  lemma SnapshotStays(cfg: Config, s: State, a: Action, c: nat, drained: Queues)
    requires Enabled(s, a) && Always(s) && AllFirst(s) && SnapshotIs(s, c, drained)
    ensures SnapshotIs(Apply(cfg, s, a), c, drained)
  {
    var h := s.handlers[c];
    assert FirstFits(h);
    if h.pc.PurgeExpired? { QueuesStandStill(cfg, s, a, c); }
    if !Touches(a, c) {
      OtherStep(cfg, s, a, c);
      hide Apply, Enabled, Always, AllFirst;
    } else if a.HandlerStep? {
      RestEffect(cfg, s.inner, c, h, a.admitted);
      OwnStep(cfg, s.inner, c, h, a.admitted);
      OwnPast(cfg, s.inner, c, h, a.admitted);
      hide HandlerMove, HandlerReady, Always, AllFirst, PendingOf;
    } else {
      hide Always, AllFirst, PendingOf;
    }
  }

  lemma OwnPast(cfg: Config, b: Inner, c: nat, h: Handler, admitted: bool)
    requires HandlerReady(b, h) && h.registered.Some? && (h.pc.PurgeExpired? || !BeforeSnapshot(h))
    ensures !BeforeSnapshot(HandlerMove(cfg, b, c, h, admitted).1)
  {
    if h.pc.Route? { RouteFits(cfg, b, h, admitted); }
    hide AfterDrain, AfterAck, PendingOf, ExpiredIds, Purge, RegistrationAck, CapabilityOf, TakenCommand, NodeOf;
    hide PcAfterRoute, Registry.Upserted, Registry.PositionIn;
  }

  lemma {:induction false} SnapshotHolds(cfg: Config, s: State, actions: seq<Action>, t: State, c: nat, drained: Queues)
    requires Run(cfg, s, actions, t) && Always(s) && AllFirst(s) && SnapshotIs(s, c, drained)
    ensures SnapshotIs(t, c, drained)
    decreases |actions|
  {
    if actions != [] {
      AlwaysStep(cfg, s, actions[0]);
      AllFirstStep(cfg, s, actions[0]);
      SnapshotStays(cfg, s, actions[0], c, drained);
      hide Apply, Enabled, Always, AllFirst, SnapshotIs;
      SnapshotHolds(cfg, Apply(cfg, s, actions[0]), actions[1..], t, c, drained);
    }
  }

  /** Whatever runs between the drain and the purge, and ever after: what the connection replays is its node's
      queue as the drain left it. */
  lemma {:induction false} SnapshotIsQueueAtDrain(
    cfg: Config, before: seq<Action>, s: State, c: nat, admitted: bool, after: seq<Action>, t: State)
    requires Run(cfg, START, before, s) && Enabled(s, HandlerStep(c, admitted)) && s.handlers[c].pc.DrainQueue?
    requires Run(cfg, Apply(cfg, s, HandlerStep(c, admitted)), after, t)
    ensures c < |t.handlers| &&
      (t.handlers[c].pc.PurgeExpired? ||
       t.handlers[c].snapshot == PendingOf(AfterDrain(s.inner.queues, s.inner.now), NodeOf(s.handlers[c])))
    ensures t.handlers[c].registered == s.handlers[c].registered
  {
    var a := HandlerStep(c, admitted);
    BridgeTasks.InvHolds(cfg, START, before, s);
    StartsLiveIff(cfg, START, before, s, c);
    assert FirstFits(s.handlers[c]);
    DrainTaken(cfg, s, c, admitted);
    AlwaysStep(cfg, s, a);
    AllFirstStep(cfg, s, a);
    OwnStep(cfg, s.inner, c, s.handlers[c], admitted);
    var u := Apply(cfg, s, a);
    assert u.handlers[c].registered == s.handlers[c].registered;
    hide Apply, Enabled, Always, AllFirst, AfterDrain;
    SnapshotHolds(cfg, u, after, t, c, AfterDrain(s.inner.queues, s.inner.now));
    RegistrationHolds(cfg, u, after, t, c);
    hide Run;
  }

  lemma {:induction false} RegistrationHolds(cfg: Config, s: State, actions: seq<Action>, t: State, c: nat)
    requires Run(cfg, s, actions, t) && c < |s.handlers| && s.handlers[c].registered.Some?
    ensures c < |t.handlers| && t.handlers[c].registered == s.handlers[c].registered
    decreases |actions|
  {
    if actions != [] {
      RegistrationStays(cfg, s, actions[0], c);
      hide Apply, Enabled;
      RegistrationHolds(cfg, Apply(cfg, s, actions[0]), actions[1..], t, c);
    }
  }

  lemma RegistrationStays(cfg: Config, s: State, a: Action, c: nat)
    requires Enabled(s, a) && c < |s.handlers| && s.handlers[c].registered.Some?
    ensures c < |Apply(cfg, s, a).handlers| && Apply(cfg, s, a).handlers[c].registered == s.handlers[c].registered
  {
    if !Touches(a, c) {
      OtherStep(cfg, s, a, c);
      hide Apply, Enabled;
    } else if a.HandlerStep? {
      OwnStep(cfg, s.inner, c, s.handlers[c], a.admitted);
      hide HandlerMove, HandlerReady;
    }
  }
}
