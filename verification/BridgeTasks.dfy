// No task is lost between `send_task` (enqueue, then look up the live sender) and a connection's first
// Registration (publish the sender, then snapshot the queue), however they interleave.

module BridgeTasks {
  import opened Base
  import opened Sapient
  import opened TaskQueues
  import opened Bridge
  import BridgeLocks
  import Routing

  // ---- vocabulary ----

  predicate IsTask(m: SapientMessage, id: string) { Routing.ExtractTaskId(m) == Ok(id) }

  /** How often a task has been handed to a write channel. */
  function OfferCount(os: seq<Offer>, id: string): nat {
    if os == [] then 0
    else OfferCount(os[..|os| - 1], id) + (if IsTask(os[|os| - 1].msg, id) then 1 else 0)
  }

  function IdCount(q: Queue, id: string): nat {
    if q == [] then 0 else (if q[0].taskId == id then 1 else 0) + IdCount(q[1..], id)
  }

  /** What the handler still has to replay. */
  function Rest(h: Handler): Queue { if h.pc.Replay? then h.pc.rest else [] }

  predicate BeforeSnapshot(h: Handler) {
    h.registered.None? || h.pc.Publish? || h.pc.SendAck? || h.pc.DrainQueue? || h.pc.PurgeExpired?
  }

  predicate ReplayFinished(h: Handler) { !BeforeSnapshot(h) && !h.pc.Replay? }

  predicate Enqueued(t: Sender) { !t.pc.InsertCommand? && !t.pc.EnqueueTask? }

  ghost predicate UniqueIds(s: State) {
    forall i, j :: 0 <= i < j < |s.senders| ==> s.senders[i].taskId != s.senders[j].taskId
  }

  ghost predicate SenderOf(s: State, i: nat, id: string) { i < |s.senders| && s.senders[i].taskId == id }

  ghost predicate DoneWith(s: State, id: string) {
    exists i: nat :: SenderOf(s, i, id) && s.senders[i].pc.SendDone?
  }

  ghost predicate DistinctIds(q: Queue) {
    forall k, l :: 0 <= k < l < |q| ==> q[k].taskId != q[l].taskId
  }

  // ---- queues only shrink, except where a sender pushes its own task ----

  ghost predicate Shrunk(qs: Queues, qs': Queues) {
    forall n :: n in qs' ==>
      n in qs && (forall t :: t in qs'[n] ==> t in qs[n]) && (DistinctIds(qs[n]) ==> DistinctIds(qs'[n]))
  }

  lemma {:induction false} RetainDistinct(p: QueuedTask -> bool, q: Queue)
    requires DistinctIds(q)
    ensures DistinctIds(Retain(p, q))
  {
    if q != [] {
      RetainDistinct(p, q[1..]);
      RetainMembers(p, q[1..]);
      var r := Retain(p, q[1..]);
      assert forall k :: 0 <= k < |r| ==> r[k] in q[1..];
    }
  }

  lemma AcksAndDrainsShrink(qs: Queues, now: nat, node: string, id: string)
    ensures Shrunk(qs, AfterDrain(qs, now)) && Shrunk(qs, AfterAck(qs, node, id))
  {
    forall n | n in qs
      ensures forall t :: t in Retain(LiveAt(now), qs[n]) ==> t in qs[n]
      ensures forall t :: t in Retain(OtherThan(id), qs[n]) ==> t in qs[n]
      ensures DistinctIds(qs[n]) ==>
        DistinctIds(Retain(LiveAt(now), qs[n])) && DistinctIds(Retain(OtherThan(id), qs[n]))
    {
      RetainMembers(LiveAt(now), qs[n]);
      RetainMembers(OtherThan(id), qs[n]);
      if DistinctIds(qs[n]) {
        RetainDistinct(LiveAt(now), qs[n]);
        RetainDistinct(OtherThan(id), qs[n]);
      }
    }
    hide Retain, DistinctIds;
  }

  /** `qs'` is `qs` with some tasks gone and `t` pushed for `node`. */
  ghost predicate PushedOne(qs: Queues, qs': Queues, node: string, t: QueuedTask) {
    forall n :: n in qs' ==>
      (n in qs || n == node) &&
      (forall u :: u in qs'[n] ==> (n in qs && u in qs[n]) || (n == node && u == t)) &&
      ((n in qs ==> DistinctIds(qs[n]) && forall u :: u in qs[n] ==> u.taskId != t.taskId) ==> DistinctIds(qs'[n]))
  }

  lemma PushedDistinct(q: Queue, t: QueuedTask, maxDepth: nat)
    requires DistinctIds(q) && forall u :: u in q ==> u.taskId != t.taskId
    ensures DistinctIds(Pushed(q, t, maxDepth))
  {
  }

  /** Pushing `t` onto `q`, what a drain left of `was`. */
  lemma PushedAt(was: Queue, q: Queue, t: QueuedTask, maxDepth: nat)
    requires (forall u :: u in q ==> u in was) && (DistinctIds(was) ==> DistinctIds(q))
    ensures forall u :: u in Pushed(q, t, maxDepth) ==> u in was || u == t
    ensures DistinctIds(was) && (forall u :: u in was ==> u.taskId != t.taskId) ==> DistinctIds(Pushed(q, t, maxDepth))
  {
    if DistinctIds(was) && forall u :: u in was ==> u.taskId != t.taskId { PushedDistinct(q, t, maxDepth); }
    hide DistinctIds;
  }

  lemma EnqueuePushesOne(qs: Queues, now: nat, node: string, t: QueuedTask, maxDepth: nat)
    ensures PushedOne(qs, AfterEnqueue(AfterDrain(qs, now), node, t, maxDepth), node, t)
  {
    AcksAndDrainsShrink(qs, now, node, "");
    var mid := AfterDrain(qs, now);
    assert mid.Keys == qs.Keys;
    assert DistinctIds([]);
    hide AfterDrain, DistinctIds, Pushed;
    PushedAt(PendingOf(qs, node), PendingOf(mid, node), t, maxDepth);
  }

  // ---- invariants that need no assumption ----

  /** A queued task was put there by a sender of that node, past its enqueue. */
  ghost predicate Sent(s: State, n: string, t: QueuedTask) {
    exists i: nat :: SenderOf(s, i, t.taskId) && s.senders[i].node == n && Enqueued(s.senders[i]) &&
      s.senders[i].msg == t.msg && IsTask(t.msg, t.taskId) && s.senders[i].enqueuedAt == Some(t.enqueuedAt)
  }

  ghost predicate QueuesSent(s: State) {
    forall n, t :: n in s.inner.queues && t in s.inner.queues[n] ==> Sent(s, n, t)
  }

  ghost predicate SendersOk(s: State) {
    forall i :: 0 <= i < |s.senders| ==> IsTask(s.senders[i].msg, s.senders[i].taskId)
  }

  ghost predicate RestOk(h: Handler) { forall t :: t in Rest(h) ==> IsTask(t.msg, t.taskId) }

  /** A published sender belongs to a connection registered for that node. */
  ghost predicate ConnectionsOk(s: State) {
    forall n :: n in s.inner.connections ==>
      s.inner.connections[n] < |s.handlers| &&
      s.handlers[s.inner.connections[n]].registered == Some(n) && !s.handlers[s.inner.connections[n]].pc.Publish?
  }

  /** A call that holds `connections` is about to send to the published connection. */
  ghost predicate TargetsOk(s: State) {
    (forall k :: 0 <= k < |s.alerts| && s.alerts[k].pc.AlertSend? ==>
      s.alerts[k].node in s.inner.connections && s.inner.connections[s.alerts[k].node] == s.alerts[k].pc.conn) &&
    forall i :: 0 <= i < |s.senders| && s.senders[i].pc.SendLive? ==>
      s.senders[i].node in s.inner.connections && s.inner.connections[s.senders[i].node] == s.senders[i].pc.conn
  }

  predicate DrainPending(h: Handler) { h.pc.DrainQueue? || h.pc.PurgeExpired? }

  predicate Leaving(pc: HandlerPc) { pc.LeaveConnections? || pc.LeaveRegistry? || pc.EmitGone? }

  /** Program counters only a registered connection reaches. */
  predicate PcFits(h: Handler) {
    h.pc.Publish? || h.pc.SendAck? || DrainPending(h) || h.pc.Replay? || Leaving(h.pc) ==> h.registered.Some?
  }

  ghost predicate Always(s: State) {
    BridgeLocks.LocksFit(s) && SendersOk(s) && QueuesSent(s) && ConnectionsOk(s) && TargetsOk(s) &&
    forall c :: 0 <= c < |s.handlers| ==> RestOk(s.handlers[c]) && PcFits(s.handlers[c])
  }

  // ---- invariants under unique task ids ----

  ghost predicate QueuesDistinct(qs: Queues) { forall n :: n in qs ==> DistinctIds(qs[n]) }

  /** The lower bound in the making: a finished sender's task that is still queued has been offered to the
      published connection that took its snapshot, or waits to be replayed there. */
  ghost predicate OfferedOrWaiting(s: State, i: nat, c: nat)
    requires i < |s.senders| && c < |s.handlers|
  {
    var t, h := s.senders[i], s.handlers[c];
    t.pc.SendDone? && t.node in s.inner.connections && s.inner.connections[t.node] == c &&
    Queued(s.inner.queues, t.node, t.taskId) && !BeforeSnapshot(h) ==>
      OfferCount(h.channel.offers, t.taskId) + IdCount(Rest(h), t.taskId) >= 1
  }

  /** The upper bound: one offer for the live send, one for the replay. */
  ghost predicate AtMostTwice(s: State, h: Handler, id: string) {
    OfferCount(h.channel.offers, id) + IdCount(Rest(h), id)
      <= (if DoneWith(s, id) then 1 else 0) + (if BeforeSnapshot(h) then 0 else 1)
  }

  ghost predicate WhenUnique(s: State) {
    QueuesDistinct(s.inner.queues) &&
    (forall i, c :: 0 <= i < |s.senders| && 0 <= c < |s.handlers| ==> OfferedOrWaiting(s, i, c)) &&
    (forall c, id :: 0 <= c < |s.handlers| ==> AtMostTwice(s, s.handlers[c], id))
  }

  // ---- what a handler's step does, as far as tasks go ----

  lemma {:induction false} IdCountDistinct(q: Queue, id: string)
    requires DistinctIds(q)
    ensures IdCount(q, id) <= 1
    ensures IdCount(q, id) >= 1 <==> exists k :: 0 <= k < |q| && q[k].taskId == id
  {
    if q != [] {
      IdCountDistinct(q[1..], id);
      var r := q[1..];
      assert forall k :: 0 <= k < |r| ==> r[k] == q[k + 1];
    }
  }

  lemma {:induction false} OfferCountSent(os: seq<Offer>, o: Offer, id: string)
    ensures OfferCount(os + [o], id) == OfferCount(os, id) + (if IsTask(o.msg, id) then 1 else 0)
  {
    assert (os + [o])[..|os|] == os;
  }

  function OwnOffer(cfg: Config, h: Handler): seq<Offer> {
    match h.pc
    case SendAck(_) => [Offer(FromAck, RegistrationAck(cfg, NodeOf(h)))]
    case Replay(_, rest) => if rest == [] then [] else [Offer(FromReplay, rest[0].msg)]
    case _ => []
  }

  lemma AlertOffers(cfg: Config, s: State, k: nat, c: nat)
    requires AlertEnabled(s, k) && c < |s.handlers|
    ensures c < |AlertApply(cfg, s, k).handlers|
    ensures AlertApply(cfg, s, k).handlers[c].channel.offers == s.handlers[c].channel.offers +
      (if s.alerts[k].pc == AlertSend(c) then [Offer(FromAlert(k), AlertAck(cfg, s.alerts[k]))] else [])
  {
    hide AlertAck;
    assert s.handlers[c].channel.offers + [] == s.handlers[c].channel.offers;
  }

  /** An alert acknowledgement on a channel counts for no task. */
  lemma {:induction false} AlertCounts(cfg: Config, s: State, k: nat, c: nat, id: string)
    requires AlertEnabled(s, k) && c < |s.handlers|
    ensures c < |AlertApply(cfg, s, k).handlers|
    ensures OfferCount(AlertApply(cfg, s, k).handlers[c].channel.offers, id) ==
      OfferCount(s.handlers[c].channel.offers, id)
  {
    AlertOffers(cfg, s, k, c);
    var os := s.handlers[c].channel.offers;
    OfferCountSent(os, Offer(FromAlert(k), AlertAck(cfg, s.alerts[k])), id);
    hide AlertApply, AlertEnabled, OfferCount;
    assert os + [] == os;
  }

  /** What a handler's own step offers, and what it leaves to replay. */
  lemma OwnEffect(cfg: Config, b: Inner, c: nat, h: Handler, admitted: bool)
    requires HandlerReady(b, h) && PcFits(h)
    ensures var (b', h') := HandlerMove(cfg, b, c, h, admitted);
      PcFits(h') && h'.registered == h.registered &&
      h'.channel.offers == h.channel.offers + OwnOffer(cfg, h) &&
      if BeforeSnapshot(h) && !BeforeSnapshot(h') then
        Rest(h') == PendingOf(b'.queues, NodeOf(h)) && Rest(h) == [] && OwnOffer(cfg, h) == [] &&
          h'.channel == h.channel
      else
        BeforeSnapshot(h') == BeforeSnapshot(h) && Rest(h') == (if Rest(h) == [] then [] else Rest(h)[1..])
  {
    if h.pc.Route? { RouteFits(cfg, b, h, admitted); }
    hide ExpiredIds, AfterDrain, AfterAck, Purge, PendingOf, CapabilityOf, TakenCommand, NodeOf, RegistrationAck;
    hide PcAfterRoute, Registry.Upserted, Registry.PositionIn;
  }

  /** The offers and the replay list of one handler, before and after its own step. */
  lemma {:induction false} HandlerOffers(cfg: Config, b: Inner, c: nat, h: Handler, admitted: bool, id: string)
    requires HandlerReady(b, h) && RestOk(h) && PcFits(h)
    ensures var (b', h') := HandlerMove(cfg, b, c, h, admitted);
      PcFits(h') && h'.registered == h.registered &&
      if BeforeSnapshot(h) && !BeforeSnapshot(h') then
        h'.channel == h.channel && Rest(h') == PendingOf(b'.queues, NodeOf(h)) && Rest(h) == []
      else
        BeforeSnapshot(h') == BeforeSnapshot(h) && RestOk(h') &&
        OfferCount(h'.channel.offers, id) + IdCount(Rest(h'), id) ==
          OfferCount(h.channel.offers, id) + IdCount(Rest(h), id)
  {
    OwnEffect(cfg, b, c, h, admitted);
    OwnOfferCounts(cfg, h, id);
    hide HandlerMove, HandlerReady, OfferCount, IdCount, BeforeSnapshot, PcFits, OwnOffer, IsTask, PendingOf, NodeOf;
    if Rest(h) != [] {
      var rest := Rest(h);
      assert forall t :: t in rest[1..] ==> t in rest;
    }
  }

  /** Offering the head of the replay list moves it from one count to the other; an acknowledgement counts for
      neither. */
  lemma {:induction false} OwnOfferCounts(cfg: Config, h: Handler, id: string)
    requires RestOk(h)
    ensures OfferCount(h.channel.offers + OwnOffer(cfg, h), id)
         + IdCount(if Rest(h) == [] then [] else Rest(h)[1..], id)
         == OfferCount(h.channel.offers, id) + IdCount(Rest(h), id)
  {
    var os := h.channel.offers;
    assert os + [] == os;
    if h.pc.SendAck? {
      OfferCountSent(os, Offer(FromAck, RegistrationAck(cfg, NodeOf(h))), id);
    } else if h.pc.Replay? && h.pc.rest != [] {
      OfferCountSent(os, Offer(FromReplay, h.pc.rest[0].msg), id);
      assert h.pc.rest[0] in Rest(h);
    }
    hide OfferCount;
  }

  /** Routing a message never goes back to registering, never leaves, and attaches no command. */
  lemma RouteFits(cfg: Config, b: Inner, h: Handler, admitted: bool)
    requires h.pc.Route?
    ensures var sensor := Registry.PositionIn(b.registry, h.pc.msg.Node());
      var pc := PcAfterRoute(Routing.RouteMessage(cfg.geodesy, h.pc.msg, sensor, admitted));
      (pc.Reading? || pc.UpsertNode? || pc.Dequeue? || pc.Emit?) &&
      (pc.Emit? || pc.UpsertNode? ==> !pc.update.TaskAcknowledged? && !pc.update.NodeDisconnected?)
  {
    hide Routing.RouteMessage, Registry.PositionIn;
  }

  lemma HandlerQueueForms(cfg: Config, b: Inner, c: nat, h: Handler, admitted: bool)
    requires HandlerReady(b, h)
    ensures var qs := HandlerMove(cfg, b, c, h, admitted).0.queues;
      qs == b.queues || qs == AfterDrain(b.queues, b.now) ||
      (h.pc.Dequeue? && qs == AfterAck(b.queues, h.pc.node, h.pc.taskId))
  {
    hide PcAfterRoute, ExpiredIds, AfterDrain, AfterAck, Purge, PendingOf, CapabilityOf, TakenCommand, RegistrationAck;
    hide NodeOf, Registry.Upserted, Registry.PositionIn, Routing.RouteMessage;
  }

  lemma HandlerConnects(cfg: Config, b: Inner, c: nat, h: Handler, admitted: bool)
    requires HandlerReady(b, h)
    ensures var (b', h') := HandlerMove(cfg, b, c, h, admitted);
      (if h.pc.Publish? then
         b'.connections == b.connections[NodeOf(h) := c] && h'.pc.SendAck? && b.connectionsOwner.None?
       else if h.pc.LeaveConnections? then
         b'.connections == b.connections - {NodeOf(h)} && b.connectionsOwner.None?
       else b'.connections == b.connections) &&
      !h'.pc.Publish?
  {
    if h.pc.Route? { RouteFits(cfg, b, h, admitted); }
    hide PcAfterRoute, ExpiredIds, AfterDrain, AfterAck, Purge, PendingOf, CapabilityOf, TakenCommand, RegistrationAck;
    hide NodeOf, Registry.Upserted, Registry.PositionIn, Routing.RouteMessage;
  }

  /** What a handler's step does to the queues and the published senders. */
  lemma HandlerShared(cfg: Config, b: Inner, c: nat, h: Handler, admitted: bool)
    requires HandlerReady(b, h)
    ensures var (b', h') := HandlerMove(cfg, b, c, h, admitted);
      Shrunk(b.queues, b'.queues) &&
      (if h.pc.Publish? then
         b'.connections == b.connections[NodeOf(h) := c] && h'.pc.SendAck? && b.connectionsOwner.None?
       else if h.pc.LeaveConnections? then
         b'.connections == b.connections - {NodeOf(h)} && b.connectionsOwner.None?
       else b'.connections == b.connections) &&
      !h'.pc.Publish?
  {
    AcksAndDrainsShrink(b.queues, b.now, if h.pc.Dequeue? then h.pc.node else "",
                        if h.pc.Dequeue? then h.pc.taskId else "");
    assert Shrunk(b.queues, b.queues);
    HandlerQueueForms(cfg, b, c, h, admitted);
    HandlerConnects(cfg, b, c, h, admitted);
    hide HandlerMove, HandlerReady, Shrunk, AfterDrain, AfterAck, NodeOf;
  }

  // ---- the invariants that need no assumption are kept ----

  /** Senders are only added and only move forward. */
  ghost predicate Advances(s: State, t: State) {
    |s.senders| <= |t.senders| &&
    forall i :: 0 <= i < |s.senders| ==>
      t.senders[i] == s.senders[i].(pc := t.senders[i].pc, enqueuedAt := t.senders[i].enqueuedAt) &&
      (Enqueued(s.senders[i]) ==> t.senders[i].enqueuedAt == s.senders[i].enqueuedAt) &&
      (Enqueued(s.senders[i]) ==> Enqueued(t.senders[i])) &&
      (s.senders[i].pc.SendDone? ==> t.senders[i].pc.SendDone?)
  }

  /** So are `send_alert_ack` calls. */
  ghost predicate AlertsAdvance(s: State, t: State) {
    |s.alerts| <= |t.alerts| &&
    forall k :: 0 <= k < |s.alerts| ==> t.alerts[k] == s.alerts[k].(pc := t.alerts[k].pc)
  }

  lemma AlertsOnlyAdvance(cfg: Config, s: State, a: Action)
    requires Enabled(s, a)
    ensures AlertsAdvance(s, Apply(cfg, s, a))
  {
    hide SenderMove, HandlerMove, Received, AlertAck, Routing.ExtractTaskId;
  }

  lemma SendersAdvance(cfg: Config, s: State, a: Action)
    requires Enabled(s, a)
    ensures Advances(s, Apply(cfg, s, a))
  {
    hide HandlerMove, LostByEnqueue, QueuesAfterEnqueue, Purge, Routing.ExtractTaskId, Received;
  }

  lemma SentStays(s: State, t: State, n: string, task: QueuedTask)
    requires Advances(s, t) && Sent(s, n, task)
    ensures Sent(t, n, task)
  {
    var i: nat :| SenderOf(s, i, task.taskId) && s.senders[i].node == n && Enqueued(s.senders[i]);
    assert SenderOf(t, i, task.taskId);
  }

  /** What a sender's step does to the queues and the published senders. */
  lemma SenderShared(cfg: Config, b: Inner, i: nat, t: Sender)
    requires SenderReady(b, t)
    ensures var (b', pc) := SenderMove(cfg, b, i, t);
      b'.connections == b.connections &&
      (pc.SendLive? ==> t.pc.LookUp? && t.node in b.connections && b.connections[t.node] == pc.conn) &&
      (pc.SendDone? ==> t.pc.LookUp? && t.node !in b.connections) &&
      (if t.pc.EnqueueTask?
       then b'.queues == QueuesAfterEnqueue(cfg, b, t) && (pc.LookUp? || pc.PurgeLost?)
       else b'.queues == b.queues)
  {
    hide LostByEnqueue, QueuesAfterEnqueue, Purge;
  }

  /** The ways a step can change the queues. */
  lemma QueueEffect(cfg: Config, s: State, a: Action)
    requires Enabled(s, a) && Always(s)
    ensures var t := Apply(cfg, s, a);
      if a.SenderStep? && s.senders[a.i].pc.EnqueueTask? then
        PushedOne(s.inner.queues, t.inner.queues, s.senders[a.i].node,
                  QueuedTask(s.senders[a.i].msg, s.senders[a.i].taskId, s.inner.now, cfg.ttl))
      else Shrunk(s.inner.queues, t.inner.queues)
  {
    assert Shrunk(s.inner.queues, s.inner.queues);
    hide Shrunk, PushedOne, Routing.ExtractTaskId;
    match a
    case HandlerStep(c, admitted) =>
      HandlerShared(cfg, s.inner, c, s.handlers[c], admitted);
      hide HandlerMove;
    case SenderStep(i) =>
      hide Always;
      SenderQueueEffect(cfg, s, i);
    case _ =>
      hide Always;
  }

  lemma SenderQueueEffect(cfg: Config, s: State, i: nat)
    requires SenderEnabled(s, i)
    ensures var t, u := SenderApply(cfg, s, i), s.senders[i];
      if u.pc.EnqueueTask? then
        PushedOne(s.inner.queues, t.inner.queues, u.node, QueuedTask(u.msg, u.taskId, s.inner.now, cfg.ttl))
      else t.inner.queues == s.inner.queues
  {
    hide PushedOne, AfterEnqueue;
    var u := s.senders[i];
    if !u.pc.SendLive? { SenderShared(cfg, s.inner, i, u); }
    hide SenderMove;
    EnqueuePushesOne(s.inner.queues, s.inner.now, u.node, QueuedTask(u.msg, u.taskId, s.inner.now, cfg.ttl),
      cfg.maxDepth);
  }

  lemma QueuesSentStep(cfg: Config, s: State, a: Action)
    requires Enabled(s, a) && Always(s)
    ensures QueuesSent(Apply(cfg, s, a))
  {
    QueueEffect(cfg, s, a);
    SendersAdvance(cfg, s, a);
    var t := Apply(cfg, s, a);
    if a.SenderStep? && s.senders[a.i].pc.EnqueueTask? {
      EnqueueIsSent(cfg, s, a.i);
    }
    hide Apply, Enabled, BridgeLocks.LocksFit, ConnectionsOk, TargetsOk, RestOk, PcFits, Advances, Sent, IsTask,
      DistinctIds;
    forall n, u | n in t.inner.queues && u in t.inner.queues[n] ensures Sent(t, n, u) {
      if n in s.inner.queues && u in s.inner.queues[n] { SentStays(s, t, n, u); }
    }
  }

  lemma EnqueueIsSent(cfg: Config, s: State, i: nat)
    requires Enabled(s, SenderStep(i)) && Always(s) && s.senders[i].pc.EnqueueTask?
    ensures Sent(Apply(cfg, s, SenderStep(i)), s.senders[i].node,
                 QueuedTask(s.senders[i].msg, s.senders[i].taskId, s.inner.now, cfg.ttl))
  {
    hide LostByEnqueue, QueuesAfterEnqueue;
    var t := Apply(cfg, s, SenderStep(i));
    assert SenderOf(t, i, s.senders[i].taskId);
  }

  lemma ConnectionsStep(cfg: Config, s: State, a: Action)
    requires Enabled(s, a) && Always(s)
    ensures ConnectionsOk(Apply(cfg, s, a)) && TargetsOk(Apply(cfg, s, a))
  {
    hide QueuesSent, SendersOk, RestOk, Routing.ExtractTaskId;
    match a
    case HandlerStep(c, admitted) =>
      HandlerConnections(cfg, s, c, admitted);
      hide Always, ConnectionsOk, TargetsOk, HandlerReady;
    case SenderStep(i) =>
      hide Always;
      SenderConnections(cfg, s, i);
    case AlertStep(k) =>
      AlertTouchesChannels(cfg, s, k);
      AlertTarget(cfg, s, k);
      hide AlertApply, AlertEnabled, Always, PcFits;
    case _ =>
      hide Always;
      OtherConnections(cfg, s, a);
  }

  /** A `send_alert_ack` touches a channel, the lock it holds and its own record. */
  lemma AlertTouchesChannels(cfg: Config, s: State, k: nat)
    requires AlertEnabled(s, k)
    ensures var t := AlertApply(cfg, s, k);
      t.senders == s.senders && |t.alerts| == |s.alerts| && |t.handlers| == |s.handlers| &&
      t.inner == s.inner.(connectionsOwner := t.inner.connectionsOwner) &&
      (forall j :: 0 <= j < |s.alerts| && j != k ==> t.alerts[j] == s.alerts[j]) &&
      (forall c :: 0 <= c < |s.handlers| ==> t.handlers[c] == s.handlers[c].(channel := t.handlers[c].channel))
  {
    hide AlertAck;
  }

  lemma AlertTarget(cfg: Config, s: State, k: nat)
    requires AlertEnabled(s, k)
    ensures var u := AlertApply(cfg, s, k).alerts[k];
      u.node == s.alerts[k].node &&
      (u.pc.AlertSend? ==> u.node in s.inner.connections && s.inner.connections[u.node] == u.pc.conn)
  {
    hide AlertAck;
  }

  lemma OtherConnections(cfg: Config, s: State, a: Action)
    requires Enabled(s, a) && !a.HandlerStep? && !a.SenderStep? && !a.AlertStep? && ConnectionsOk(s) && TargetsOk(s)
    ensures ConnectionsOk(Apply(cfg, s, a)) && TargetsOk(Apply(cfg, s, a))
  {
    hide Routing.ExtractTaskId;
  }

  lemma SenderConnections(cfg: Config, s: State, i: nat)
    requires SenderEnabled(s, i) && ConnectionsOk(s) && TargetsOk(s)
    ensures ConnectionsOk(SenderApply(cfg, s, i)) && TargetsOk(SenderApply(cfg, s, i))
  {
    if !s.senders[i].pc.SendLive? {
      SenderShared(cfg, s.inner, i, s.senders[i]);
      hide SenderMove;
    }
  }

  lemma HandlerConnections(cfg: Config, s: State, c: nat, admitted: bool)
    requires c < |s.handlers| && HandlerReady(s.inner, s.handlers[c])
    requires BridgeLocks.LocksFit(s) && ConnectionsOk(s) && TargetsOk(s) && RestOk(s.handlers[c]) &&
      PcFits(s.handlers[c])
    ensures ConnectionsOk(HandlerApply(cfg, s, c, admitted)) && TargetsOk(HandlerApply(cfg, s, c, admitted))
  {
    HandlerShared(cfg, s.inner, c, s.handlers[c], admitted);
    OwnEffect(cfg, s.inner, c, s.handlers[c], admitted);
    hide HandlerMove, HandlerReady, Shrunk, PcFits, BeforeSnapshot, Rest, OwnOffer, BridgeLocks.OwnersExist;
    var t := HandlerApply(cfg, s, c, admitted);
    assert ConnectionsOk(t);
    if s.inner.connectionsOwner.None? {
      assert forall i :: 0 <= i < |s.senders| ==> BridgeLocks.SenderFits(s.inner, i, s.senders[i], |s.handlers|);
      assert forall k :: 0 <= k < |s.alerts| ==> BridgeLocks.AlertFits(s.inner, k, s.alerts[k], |s.handlers|);
    }
  }

  lemma HandlersStep(cfg: Config, s: State, a: Action)
    requires Enabled(s, a) && Always(s)
    ensures var t := Apply(cfg, s, a);
      forall c :: 0 <= c < |t.handlers| ==> RestOk(t.handlers[c]) && PcFits(t.handlers[c])
  {
    if a.HandlerStep? {
      OwnRestOk(cfg, s, a.c, a.admitted);
      hide HandlerMove, HandlerReady, RestOk, PcFits;
      hide BridgeLocks.LocksFit, ConnectionsOk, TargetsOk, SendersOk, QueuesSent;
    } else {
      hide Always;
      OthersRestOk(cfg, s, a);
    }
  }

  lemma OthersRestOk(cfg: Config, s: State, a: Action)
    requires Enabled(s, a) && !a.HandlerStep?
    requires forall c :: 0 <= c < |s.handlers| ==> RestOk(s.handlers[c]) && PcFits(s.handlers[c])
    ensures var t := Apply(cfg, s, a);
      forall c :: 0 <= c < |t.handlers| ==> RestOk(t.handlers[c]) && PcFits(t.handlers[c])
  {
    hide SenderMove, IsTask, AlertAck, Routing.ExtractTaskId;
  }

  lemma OwnRestOk(cfg: Config, s: State, c: nat, admitted: bool)
    requires Enabled(s, HandlerStep(c, admitted)) && Always(s)
    ensures var h' := HandlerMove(cfg, s.inner, c, s.handlers[c], admitted).1; RestOk(h') && PcFits(h')
  {
    var a := HandlerStep(c, admitted);
    var h, t := s.handlers[c], Apply(cfg, s, a);
    QueuesSentStep(cfg, s, a);
    HandlerOffers(cfg, s.inner, c, h, admitted, "");
    hide HandlerMove, HandlerReady, OfferCount, IdCount, Always, IsTask;
    forall u | u in Rest(t.handlers[c]) ensures IsTask(u.msg, u.taskId) {
      if BeforeSnapshot(h) && !BeforeSnapshot(t.handlers[c]) { assert Sent(t, NodeOf(h), u); }
    }
  }

  lemma SendersOkStep(cfg: Config, s: State, a: Action)
    requires Enabled(s, a) && SendersOk(s)
    ensures SendersOk(Apply(cfg, s, a))
  {
    SendersAdvance(cfg, s, a);
    hide SenderMove, HandlerMove, Received, Routing.ExtractTaskId;
  }

  lemma AlwaysStep(cfg: Config, s: State, a: Action)
    requires Enabled(s, a) && Always(s)
    ensures Always(Apply(cfg, s, a))
  {
    BridgeLocks.LocksStep(cfg, s, a);
    SendersOkStep(cfg, s, a);
    QueuesSentStep(cfg, s, a);
    ConnectionsStep(cfg, s, a);
    HandlersStep(cfg, s, a);
    hide Apply, Enabled, BridgeLocks.LocksFit, ConnectionsOk, TargetsOk, RestOk, PcFits, QueuesSent, SendersOk;
  }

  // ---- the invariants under unique ids are kept ----

  lemma UniqueBefore(cfg: Config, s: State, a: Action)
    requires Enabled(s, a) && UniqueIds(Apply(cfg, s, a))
    ensures UniqueIds(s)
  {
    SendersAdvance(cfg, s, a);
    var t := Apply(cfg, s, a);
    hide Apply, Enabled;
    assert forall i :: 0 <= i < |s.senders| ==> t.senders[i].taskId == s.senders[i].taskId;
  }

  /** A sender that has not enqueued yet has nothing queued. */
  lemma NotQueuedYet(s: State, i: nat, n: string, u: QueuedTask)
    requires QueuesSent(s) && UniqueIds(s) && i < |s.senders| && !Enqueued(s.senders[i])
    requires n in s.inner.queues && u in s.inner.queues[n]
    ensures u.taskId != s.senders[i].taskId
  {
    assert Sent(s, n, u);
    var j: nat :| SenderOf(s, j, u.taskId) && Enqueued(s.senders[j]);
  }

  lemma DistinctStep(cfg: Config, s: State, a: Action)
    requires Enabled(s, a) && Always(s) && UniqueIds(s) && QueuesDistinct(s.inner.queues)
    ensures QueuesDistinct(Apply(cfg, s, a).inner.queues)
  {
    QueueEffect(cfg, s, a);
    if a.SenderStep? && s.senders[a.i].pc.EnqueueTask? {
      forall n, u | n in s.inner.queues && u in s.inner.queues[n] ensures u.taskId != s.senders[a.i].taskId {
        NotQueuedYet(s, a.i, n, u);
      }
    }
    hide Apply, Enabled, Always, DistinctIds;
  }

  /** A task queued after the step, other than the one being enqueued, was queued before it. */
  lemma QueuedBefore(cfg: Config, s: State, a: Action, n: string, id: string)
    requires Enabled(s, a) && Always(s)
    requires Queued(Apply(cfg, s, a).inner.queues, n, id)
    requires a.SenderStep? && s.senders[a.i].pc.EnqueueTask? ==> id != s.senders[a.i].taskId
    ensures Queued(s.inner.queues, n, id)
  {
    QueueEffect(cfg, s, a);
    var qs': Queues := Apply(cfg, s, a).inner.queues;
    hide Apply, Enabled, Always, DistinctIds;
    var k: nat :| k < |qs'[n]| && qs'[n][k].taskId == id;
    var u := qs'[n][k];
    assert u in qs'[n];
    var l: nat :| l < |s.inner.queues[n]| && s.inner.queues[n][l] == u;
  }

  // lower bound

  lemma LowAfterHandler(cfg: Config, s: State, c0: nat, admitted: bool, i: nat, c: nat)
    requires Enabled(s, HandlerStep(c0, admitted)) && Always(s) && i < |s.senders| && c < |s.handlers|
    requires QueuesDistinct(Apply(cfg, s, HandlerStep(c0, admitted)).inner.queues)
    requires OfferedOrWaiting(s, i, c)
    ensures OfferedOrWaiting(Apply(cfg, s, HandlerStep(c0, admitted)), i, c)
  {
    var a := HandlerStep(c0, admitted);
    var t, u, h0 := Apply(cfg, s, a), s.senders[i], s.handlers[c0];
    HandlerShared(cfg, s.inner, c0, h0, admitted);
    HandlerOffers(cfg, s.inner, c0, h0, admitted, u.taskId);
    if Queued(t.inner.queues, u.node, u.taskId) {
      QueuedBefore(cfg, s, a, u.node, u.taskId);
      IdCountDistinct(t.inner.queues[u.node], u.taskId);
    }
    assert PcFits(h0) && ConnectionsOk(s);
    hide HandlerMove, HandlerReady, Shrunk, OfferCount, IdCount, Always, DistinctIds, Rest, Queued;
  }

  lemma LowAfterSender(cfg: Config, s: State, j: nat, i: nat, c: nat)
    requires Enabled(s, SenderStep(j)) && Always(s) && UniqueIds(s) && i < |s.senders| && c < |s.handlers|
    requires OfferedOrWaiting(s, i, c)
    ensures OfferedOrWaiting(Apply(cfg, s, SenderStep(j)), i, c)
  {
    var a := SenderStep(j);
    var t, u := Apply(cfg, s, a), s.senders[i];
    assert i != j ==> u.taskId != s.senders[j].taskId;
    if Queued(t.inner.queues, u.node, u.taskId) && !(i == j && u.pc.EnqueueTask?) {
      QueuedBefore(cfg, s, a, u.node, u.taskId);
    }
    if s.senders[j].pc.SendLive? {
      var o := Offer(FromSender(j), s.senders[j].msg);
      OfferCountSent(s.handlers[s.senders[j].pc.conn].channel.offers, o, u.taskId);
      assert TargetsOk(s) && SendersOk(s);
    } else {
      SenderShared(cfg, s.inner, j, s.senders[j]);
    }
    hide SenderMove, OfferCount, IdCount, Always, Queued, UniqueIds, QueuesAfterEnqueue;
  }

  lemma LowStep(cfg: Config, s: State, a: Action, i: nat, c: nat)
    requires Enabled(s, a) && Always(s) && UniqueIds(s) && WhenUnique(s)
    requires QueuesDistinct(Apply(cfg, s, a).inner.queues)
    requires i < |Apply(cfg, s, a).senders| && c < |Apply(cfg, s, a).handlers|
    ensures OfferedOrWaiting(Apply(cfg, s, a), i, c)
  {
    match a
    case HandlerStep(c0, admitted) =>
      assert OfferedOrWaiting(s, i, c);
      hide WhenUnique, UniqueIds, OfferedOrWaiting;
      LowAfterHandler(cfg, s, c0, admitted, i, c);
    case SenderStep(j) =>
      SendersAdvance(cfg, s, a);
      assert OfferedOrWaiting(s, i, c);
      hide WhenUnique, OfferedOrWaiting, SenderMove;
      LowAfterSender(cfg, s, j, i, c);
    case AlertStep(k) =>
      AlertTouchesChannels(cfg, s, k);
      assert OfferedOrWaiting(s, i, c);
      AlertCounts(cfg, s, k, c, s.senders[i].taskId);
      hide AlertApply, AlertEnabled, Always, WhenUnique, UniqueIds, OfferCount, IdCount, Queued;
    case _ =>
      hide Always, UniqueIds;
      LowAfterOther(cfg, s, a, i, c);
  }

  lemma LowAfterOther(cfg: Config, s: State, a: Action, i: nat, c: nat)
    requires Enabled(s, a) && !a.HandlerStep? && !a.SenderStep? && !a.AlertStep?
    requires ConnectionsOk(s) && WhenUnique(s)
    requires i < |Apply(cfg, s, a).senders| && c < |Apply(cfg, s, a).handlers|
    ensures OfferedOrWaiting(Apply(cfg, s, a), i, c)
  {
    if i < |s.senders| && c < |s.handlers| { assert OfferedOrWaiting(s, i, c); }
    hide WhenUnique, OfferCount, IdCount, Queued, Routing.ExtractTaskId;
  }

  // upper bound

  lemma DoneStays(cfg: Config, s: State, a: Action, id: string)
    requires Enabled(s, a) && DoneWith(s, id)
    ensures DoneWith(Apply(cfg, s, a), id)
  {
    SendersAdvance(cfg, s, a);
    var i: nat :| SenderOf(s, i, id) && s.senders[i].pc.SendDone?;
    hide Apply, Enabled;
    assert SenderOf(Apply(cfg, s, a), i, id);
  }

  lemma HighAfterHandler(cfg: Config, s: State, c: nat, admitted: bool, id: string)
    requires Enabled(s, HandlerStep(c, admitted)) && Always(s)
    requires QueuesDistinct(Apply(cfg, s, HandlerStep(c, admitted)).inner.queues)
    requires AtMostTwice(s, s.handlers[c], id)
    ensures var t := Apply(cfg, s, HandlerStep(c, admitted)); AtMostTwice(t, t.handlers[c], id)
  {
    var t := Apply(cfg, s, HandlerStep(c, admitted));
    HandlerOffers(cfg, s.inner, c, s.handlers[c], admitted, id);
    if DoneWith(s, id) { DoneStays(cfg, s, HandlerStep(c, admitted), id); }
    IdCountDistinct([], id);
    if NodeOf(s.handlers[c]) in t.inner.queues { IdCountDistinct(t.inner.queues[NodeOf(s.handlers[c])], id); }
    hide HandlerMove, HandlerReady, OfferCount, IdCount, Always, DistinctIds, DoneWith;
  }

  /** While its sender is still sending it live, a task is not done with. */
  lemma NotDoneYet(s: State, j: nat)
    requires UniqueIds(s) && j < |s.senders| && !s.senders[j].pc.SendDone?
    ensures !DoneWith(s, s.senders[j].taskId)
  {
  }

  lemma HighAfterLiveSend(cfg: Config, s: State, j: nat, id: string)
    requires SenderEnabled(s, j) && SendersOk(s) && UniqueIds(s) && s.senders[j].pc.SendLive?
    requires AtMostTwice(s, s.handlers[s.senders[j].pc.conn], id)
    ensures var t := SenderApply(cfg, s, j); AtMostTwice(t, t.handlers[s.senders[j].pc.conn], id)
  {
    var u, t := s.senders[j], SenderApply(cfg, s, j);
    OfferCountSent(s.handlers[u.pc.conn].channel.offers, Offer(FromSender(j), u.msg), id);
    assert IsTask(u.msg, u.taskId);
    if id == u.taskId {
      NotDoneYet(s, j);
      assert SenderOf(t, j, id) && t.senders[j].pc.SendDone?;
    } else if DoneWith(s, id) {
      DoneStays(cfg, s, SenderStep(j), id);
    }
    hide DoneWith, UniqueIds, OfferCount, IdCount, SendersOk;
  }

  lemma HighStep(cfg: Config, s: State, a: Action, c: nat, id: string)
    requires Enabled(s, a) && Always(s) && UniqueIds(s) && WhenUnique(s)
    requires QueuesDistinct(Apply(cfg, s, a).inner.queues) && c < |Apply(cfg, s, a).handlers|
    ensures AtMostTwice(Apply(cfg, s, a), Apply(cfg, s, a).handlers[c], id)
  {
    if c < |s.handlers| { assert AtMostTwice(s, s.handlers[c], id); }
    if a.HandlerStep? && a.c == c {
      hide WhenUnique, UniqueIds, AtMostTwice;
      HighAfterHandler(cfg, s, c, a.admitted, id);
    } else if a.SenderStep? && s.senders[a.i].pc.SendLive? && s.senders[a.i].pc.conn == c {
      hide WhenUnique, UniqueIds, AtMostTwice, QueuesDistinct;
      HighAfterLiveSend(cfg, s, a.i, id);
    } else {
      hide Always, UniqueIds, QueuesDistinct;
      HighElsewhere(cfg, s, a, c, id);
    }
  }

  /** A step that neither offers anything to connection `c` nor is its handler's own. */
  lemma HighElsewhere(cfg: Config, s: State, a: Action, c: nat, id: string)
    requires Enabled(s, a) && c < |Apply(cfg, s, a).handlers| &&
      (c < |s.handlers| ==> AtMostTwice(s, s.handlers[c], id))
    requires !(a.HandlerStep? && a.c == c)
    requires !(a.SenderStep? && s.senders[a.i].pc.SendLive? && s.senders[a.i].pc.conn == c)
    ensures AtMostTwice(Apply(cfg, s, a), Apply(cfg, s, a).handlers[c], id)
  {
    if DoneWith(s, id) { DoneStays(cfg, s, a, id); }
    NothingOffered(id);
    if a.AlertStep? {
      AlertTouchesChannels(cfg, s, a.k);
      AlertCounts(cfg, s, a.k, c, id);
      hide AlertApply, AlertEnabled;
    }
    hide OfferCount, IdCount, DoneWith, SenderMove, HandlerMove, Routing.ExtractTaskId;
  }

  lemma {:induction false} NothingOffered(id: string)
    ensures OfferCount([], id) == 0 && IdCount([], id) == 0
  {
  }

  lemma WhenUniqueStep(cfg: Config, s: State, a: Action)
    requires Enabled(s, a) && Always(s) && UniqueIds(s) && WhenUnique(s)
    ensures WhenUnique(Apply(cfg, s, a))
  {
    var t := Apply(cfg, s, a);
    DistinctStep(cfg, s, a);
    hide Apply, Enabled, Always, UniqueIds, QueuesDistinct, OfferedOrWaiting, AtMostTwice;
    forall i, c | 0 <= i < |t.senders| && 0 <= c < |t.handlers| ensures OfferedOrWaiting(t, i, c) {
      LowStep(cfg, s, a, i, c);
    }
    forall c, id | 0 <= c < |t.handlers| ensures AtMostTwice(t, t.handlers[c], id) {
      HighStep(cfg, s, a, c, id);
    }
  }

  lemma {:induction false} InvHolds(cfg: Config, s: State, actions: seq<Action>, t: State)
    requires Always(s) && (UniqueIds(s) ==> WhenUnique(s)) && Run(cfg, s, actions, t)
    ensures Always(t) && (UniqueIds(t) ==> WhenUnique(t))
    decreases |actions|
  {
    if actions != [] {
      var a := actions[0];
      hide Always, WhenUnique, UniqueIds, Apply, Enabled;
      AlwaysStep(cfg, s, a);
      if UniqueIds(Apply(cfg, s, a)) {
        UniqueBefore(cfg, s, a);
        WhenUniqueStep(cfg, s, a);
      }
      InvHolds(cfg, Apply(cfg, s, a), actions[1..], t);
    }
  }

  // ---- main results ----

  /** No lost task: once a `send_task` has returned and the connection currently published for its node has
      replayed its snapshot, a task that is still queued has been offered to that connection, once or
      twice. (A connection publishes itself once, so being published now means it was not replaced.) */
  lemma {:induction false} NoTaskIsLost(cfg: Config, actions: seq<Action>, s: State, i: nat, c: nat)
    requires Run(cfg, START, actions, s) && UniqueIds(s)
    requires i < |s.senders| && s.senders[i].pc.SendDone?
    requires s.senders[i].node in s.inner.connections && s.inner.connections[s.senders[i].node] == c
    requires c < |s.handlers| && ReplayFinished(s.handlers[c])
    requires Queued(s.inner.queues, s.senders[i].node, s.senders[i].taskId)
    ensures 1 <= OfferCount(s.handlers[c].channel.offers, s.senders[i].taskId) <= 2
  {
    InvHolds(cfg, START, actions, s);
    assert OfferedOrWaiting(s, i, c) && AtMostTwice(s, s.handlers[c], s.senders[i].taskId);
    NothingOffered(s.senders[i].taskId);
    hide OfferCount, Always;
  }

  /** No task is ever offered to any one connection more than twice, nor more than once before that
      connection has taken its snapshot. */
  lemma {:induction false} NeverOfferedThrice(cfg: Config, actions: seq<Action>, s: State, c: nat, id: string)
    requires Run(cfg, START, actions, s) && UniqueIds(s) && c < |s.handlers|
    ensures OfferCount(s.handlers[c].channel.offers, id) <= 2
    ensures BeforeSnapshot(s.handlers[c]) ==> OfferCount(s.handlers[c].channel.offers, id) <= 1
  {
    InvHolds(cfg, START, actions, s);
    assert AtMostTwice(s, s.handlers[c], id);
    hide OfferCount, Always;
  }
}
