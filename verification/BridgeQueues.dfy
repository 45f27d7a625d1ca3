// When a task leaves its queue: on its node's acknowledgement, by eviction, or past its TTL, and for no other
// reason.

module BridgeQueues {
  import opened Base
  import opened Sapient
  import opened TaskQueues
  import opened Bridge
  import opened BridgeTasks
  import opened BridgeAcks
  import BridgeCommands
  import BridgeLocks
  import BridgeTraces
  import Registry
  import Routing

  // ---- the three reasons ----

  /** The node's own acknowledgement is about to take the task out. */
  predicate AckedBy(s: State, a: Action, node: string, id: string) {
    a.HandlerStep? && a.c < |s.handlers| && s.handlers[a.c].pc.Dequeue? &&
    s.handlers[a.c].pc.node == node && s.handlers[a.c].pc.taskId == id
  }

  predicate Enqueues(s: State, a: Action) { a.SenderStep? && a.i < |s.senders| && s.senders[a.i].pc.EnqueueTask? }

  predicate Drains(s: State, a: Action) {
    Enqueues(s, a) || (a.HandlerStep? && a.c < |s.handlers| && s.handlers[a.c].pc.DrainQueue?)
  }

  /** The task's `send_task` enqueued it more than the TTL ago. */
  ghost predicate Outlived(cfg: Config, s: State, id: string) {
    exists i: nat :: SenderOf(s, i, id) && s.senders[i].enqueuedAt.Some? &&
      s.inner.now > s.senders[i].enqueuedAt.value + cfg.ttl
  }

  /** Another task is enqueued for the node, whose unexpired tasks fill the depth, and this is the oldest. */
  ghost predicate EvictedBy(cfg: Config, s: State, a: Action, node: string, id: string) {
    Enqueues(s, a) && s.senders[a.i].node == node &&
    var live := PendingOf(AfterDrain(s.inner.queues, s.inner.now), node);
    |live| >= cfg.maxDepth && live != [] && live[0].taskId == id
  }

  ghost predicate Departs(cfg: Config, s: State, a: Action, node: string, id: string) {
    AckedBy(s, a, node, id) || (Drains(s, a) && Outlived(cfg, s, id)) || EvictedBy(cfg, s, a, node, id)
  }

  // ---- what each lock section does to one task ----

  lemma AckOutcome(s: State, node: string, acked: string, n: string, id: string)
    requires QueuesSent(s) && UniqueIds(s) && Queued(s.inner.queues, n, id)
    ensures Queued(AfterAck(s.inner.queues, node, acked), n, id) <==> !(node == n && acked == id)
  {
    if node == n && acked == id {
      AckTakesAll(s, n, id);
      hide AfterAck;
      assert Queued(AfterAck(s.inner.queues, n, id), n, id) ==>
        BridgeCommands.QueuedSomewhere(AfterAck(s.inner.queues, n, id), id);
    } else {
      BridgeCommands.AckKeepsOthers(s.inner.queues, node, acked, n, id);
    }
  }

  /** The queued copy carries its sender's stamp and the TTL. */
  lemma CopyIsStamped(cfg: Config, s: State, n: string, u: QueuedTask)
    requires QueuesSent(s) && UniqueIds(s) && BridgeTraces.QueuesTimely(cfg, s.inner)
    requires n in s.inner.queues && u in s.inner.queues[n]
    ensures Outlived(cfg, s, u.taskId) <==> s.inner.now > u.enqueuedAt + u.ttl
  {
    assert Sent(s, n, u);
    var i: nat :| SenderOf(s, i, u.taskId) && s.senders[i].enqueuedAt == Some(u.enqueuedAt);
    var k: nat :| k < |s.inner.queues[n]| && s.inner.queues[n][k] == u;
    assert BridgeTraces.Timely(s.inner.queues[n], cfg.ttl, s.inner.now);
    assert u.ttl == cfg.ttl;
    if Outlived(cfg, s, u.taskId) {
      var j: nat :| SenderOf(s, j, u.taskId) && s.senders[j].enqueuedAt.Some? &&
        s.inner.now > s.senders[j].enqueuedAt.value + cfg.ttl;
      assert i == j;
    }
  }

  lemma DrainOutcome(cfg: Config, s: State, n: string, id: string)
    requires QueuesSent(s) && UniqueIds(s) && BridgeTraces.QueuesTimely(cfg, s.inner) && Queued(s.inner.queues, n, id)
    ensures Queued(AfterDrain(s.inner.queues, s.inner.now), n, id) <==> !Outlived(cfg, s, id)
  {
    var qs: Queues, now := s.inner.queues, s.inner.now;
    var after: Queues := AfterDrain(qs, now);
    var k: nat :| k < |qs[n]| && qs[n][k].taskId == id;
    CopyIsStamped(cfg, s, n, qs[n][k]);
    forall u | u in PendingOf(after, n) && u.taskId == id ensures !Outlived(cfg, s, id) {
      DrainKeepsLive(qs, now, n, u);
      CopyIsStamped(cfg, s, n, u);
    }
    DrainKeepsLive(qs, now, n, qs[n][k]);
    hide AfterDrain, Outlived, BridgeTraces.QueuesTimely, QueuesSent, UniqueIds;
    if !Outlived(cfg, s, id) {
      var j: nat :| j < |after[n]| && after[n][j] == qs[n][k];
    }
    if Queued(after, n, id) {
      var j: nat :| j < |after[n]| && after[n][j].taskId == id;
      assert after[n][j] in PendingOf(after, n);
    }
  }

  ghost predicate HasId(q: Queue, id: string) { exists u :: u in q && u.taskId == id }

  lemma QueuedHasId(qs: Queues, n: string, id: string)
    ensures Queued(qs, n, id) <==> HasId(PendingOf(qs, n), id)
  {
    var q := PendingOf(qs, n);
    if Queued(qs, n, id) {
      var k: nat :| k < |q| && q[k].taskId == id;
      assert q[k] in q;
    }
    if HasId(q, id) {
      var u :| u in q && u.taskId == id;
      var k: nat :| k < |q| && q[k] == u;
      assert qs[n][k].taskId == id;
    }
  }

  /** A push takes out the front of a full queue, and nothing else. */
  lemma PushedHas(q: Queue, t: QueuedTask, maxDepth: nat, id: string)
    requires id != t.taskId && DistinctIds(q)
    ensures HasId(Pushed(q, t, maxDepth), id) <==>
      HasId(q, id) && !(|q| >= maxDepth && q != [] && q[0].taskId == id)
  {
    if q != [] {
      assert q == [q[0]] + q[1..];
      if u :| u in q[1..] && u.taskId == id {
        var k: nat :| k < |q| - 1 && q[1..][k] == u;
        assert q[0].taskId != q[k + 1].taskId;
      }
    }
  }

  lemma PushOutcome(qs: Queues, node: string, t: QueuedTask, maxDepth: nat, n: string, id: string)
    requires id != t.taskId && DistinctIds(PendingOf(qs, node))
    ensures var q := PendingOf(qs, node);
      Queued(AfterEnqueue(qs, node, t, maxDepth), n, id) <==>
      Queued(qs, n, id) && !(n == node && |q| >= maxDepth && q != [] && q[0].taskId == id)
  {
    QueuedHasId(qs, n, id);
    QueuedHasId(AfterEnqueue(qs, node, t, maxDepth), n, id);
    PushedHas(PendingOf(qs, node), t, maxDepth, id);
    hide Queued, HasId, Pushed, DistinctIds;
  }

  // ---- one step ----

  lemma NotItsOwnEnqueue(s: State, i: nat, n: string, id: string)
    requires Always(s) && UniqueIds(s) && QueuesDistinct(s.inner.queues) && Queued(s.inner.queues, n, id)
    requires i < |s.senders| && s.senders[i].pc.EnqueueTask?
    ensures id != s.senders[i].taskId
    ensures DistinctIds(PendingOf(AfterDrain(s.inner.queues, s.inner.now), s.senders[i].node))
  {
    AcksAndDrainsShrink(s.inner.queues, s.inner.now, "", "");
    assert BridgeCommands.QueuedSomewhere(s.inner.queues, id);
    OwnIdNotQueued(s, i, id);
    hide AfterDrain, Queued;
  }

  lemma EnqueueOutcome(cfg: Config, s: State, a: Action, n: string, id: string)
    requires Enqueues(s, a) && Always(s) && UniqueIds(s) && QueuesDistinct(s.inner.queues)
    requires BridgeTraces.QueuesTimely(cfg, s.inner) && Queued(s.inner.queues, n, id)
    ensures Queued(QueuesAfterEnqueue(cfg, s.inner, s.senders[a.i]), n, id) <==>
      !Outlived(cfg, s, id) && !EvictedBy(cfg, s, a, n, id)
  {
    var t := s.senders[a.i];
    DrainOutcome(cfg, s, n, id);
    NotItsOwnEnqueue(s, a.i, n, id);
    hide AfterDrain, AfterEnqueue, Always, UniqueIds, Outlived, DistinctIds, QueuesDistinct, Queued;
    hide PendingOf, BridgeTraces.QueuesTimely;
    var task := QueuedTask(t.msg, t.taskId, s.inner.now, cfg.ttl);
    PushOutcome(AfterDrain(s.inner.queues, s.inner.now), t.node, task, cfg.maxDepth, n, id);
  }

  lemma EnqueueDeparts(cfg: Config, s: State, a: Action, n: string, id: string)
    requires Enqueues(s, a) && Always(s) && UniqueIds(s) && QueuesDistinct(s.inner.queues)
    requires BridgeTraces.QueuesTimely(cfg, s.inner) && Queued(s.inner.queues, n, id)
    ensures Queued(QueuesAfterEnqueue(cfg, s.inner, s.senders[a.i]), n, id) <==> !Departs(cfg, s, a, n, id)
  {
    EnqueueOutcome(cfg, s, a, n, id);
    hide Always, UniqueIds, Outlived, QueuesDistinct, Queued, QueuesAfterEnqueue, BridgeTraces.QueuesTimely;
  }

  /** A queued task leaves exactly when a step acknowledges it, drains it past its TTL, or evicts it. */
  lemma DepartureHasItsReason(cfg: Config, s: State, a: Action, n: string, id: string)
    requires Enabled(s, a) && Always(s) && UniqueIds(s) && QueuesDistinct(s.inner.queues)
    requires BridgeTraces.QueuesTimely(cfg, s.inner) && Queued(s.inner.queues, n, id)
    ensures Queued(Apply(cfg, s, a).inner.queues, n, id) <==> !Departs(cfg, s, a, n, id)
  {
    if Enqueues(s, a) {
      EnqueueDeparts(cfg, s, a, n, id);
      SenderShared(cfg, s.inner, a.i, s.senders[a.i]);
      hide SenderMove, Departs, QueuesAfterEnqueue, Queued;
    } else if a.HandlerStep? {
      HandlerDeparts(cfg, s, a.c, a.admitted, n, id);
      hide HandlerMove, HandlerReady, Departs, Queued;
    } else {
      OtherKeepsQueues(cfg, s, a);
      hide Apply, Enabled, Queued;
    }
  }

  lemma HandlerDeparts(cfg: Config, s: State, c: nat, admitted: bool, n: string, id: string)
    requires Enabled(s, HandlerStep(c, admitted)) && Always(s) && UniqueIds(s)
    requires BridgeTraces.QueuesTimely(cfg, s.inner) && Queued(s.inner.queues, n, id)
    ensures Queued(HandlerMove(cfg, s.inner, c, s.handlers[c], admitted).0.queues, n, id) <==>
      !Departs(cfg, s, HandlerStep(c, admitted), n, id)
  {
    var h := s.handlers[c];
    BridgeTraces.HandlerQueues(cfg, s.inner, c, h, admitted);
    if h.pc.Dequeue? { AckOutcome(s, h.pc.node, h.pc.taskId, n, id); }
    if h.pc.DrainQueue? { DrainOutcome(cfg, s, n, id); }
    hide HandlerMove, HandlerReady, AfterAck, AfterDrain, PendingOf, NodeOf, Queued, Outlived;
  }

  lemma OtherKeepsQueues(cfg: Config, s: State, a: Action)
    requires Enabled(s, a) && !a.HandlerStep? && !Enqueues(s, a)
    ensures Apply(cfg, s, a).inner.queues == s.inner.queues
  {
    if a.SenderStep? {
      if !s.senders[a.i].pc.SendLive? { SenderShared(cfg, s.inner, a.i, s.senders[a.i]); }
      hide SenderMove, QueuesAfterEnqueue;
    }
    hide Routing.ExtractTaskId, AlertAck, Received;
  }

  // ---- whole runs ----

  ghost predicate DepartsIn(cfg: Config, s: State, actions: seq<Action>, node: string, id: string)
    decreases |actions|
  {
    actions != [] && Enabled(s, actions[0]) &&
    ((Queued(s.inner.queues, node, id) && Departs(cfg, s, actions[0], node, id)) ||
     DepartsIn(cfg, Apply(cfg, s, actions[0]), actions[1..], node, id))
  }

  ghost predicate Good(cfg: Config, s: State) {
    BridgeTraces.Inv(cfg, s) && Always(s) && (UniqueIds(s) ==> WhenUnique(s))
  }

  lemma GoodStep(cfg: Config, s: State, a: Action)
    requires Good(cfg, s) && Enabled(s, a)
    ensures Good(cfg, Apply(cfg, s, a))
  {
    hide Apply, Enabled, Always, WhenUnique, UniqueIds;
    hide BridgeLocks.LocksFit, BridgeTraces.AllShaped, BridgeTraces.SnapshotsFit;
    BridgeLocks.LocksStep(cfg, s, a);
    BridgeTraces.ShapedStep(cfg, s, a);
    BridgeTraces.SnapshotsStep(cfg, s, a);
    AlwaysStep(cfg, s, a);
    if UniqueIds(Apply(cfg, s, a)) {
      UniqueBefore(cfg, s, a);
      WhenUniqueStep(cfg, s, a);
    }
  }

  ghost predicate IsSender(s: State, i: nat, node: string, id: string) {
    SenderOf(s, i, id) && s.senders[i].node == node
  }

  ghost predicate EnqueuedBy(s: State, i: nat, node: string, id: string) {
    IsSender(s, i, node, id) && Enqueued(s.senders[i])
  }

  /** A sender's enqueue queues its task, and nothing is queued before. */
  lemma EnqueueQueues(cfg: Config, s: State, a: Action, i: nat, node: string, id: string)
    requires Enabled(s, a) && Always(s) && UniqueIds(s) && !EnqueuedBy(s, i, node, id)
    requires EnqueuedBy(Apply(cfg, s, a), i, node, id)
    ensures !Queued(s.inner.queues, node, id) && Queued(Apply(cfg, s, a).inner.queues, node, id)
  {
    SendersAdvance(cfg, s, a);
    EnqueuedOnlyByItself(cfg, s, a, i);
    var t := s.senders[i];
    SenderShared(cfg, s.inner, i, t);
    var task := QueuedTask(t.msg, t.taskId, s.inner.now, cfg.ttl);
    BridgeCommands.PushQueues(AfterDrain(s.inner.queues, s.inner.now), t.node, task, cfg.maxDepth);
    if Queued(s.inner.queues, node, id) {
      assert BridgeCommands.QueuedSomewhere(s.inner.queues, id);
      OwnIdNotQueued(s, i, id);
    }
    hide SenderMove, AfterDrain, AfterEnqueue, Always, Queued, UniqueIds;
  }

  lemma EnqueuedOnlyByItself(cfg: Config, s: State, a: Action, i: nat)
    requires Enabled(s, a) && i < |Apply(cfg, s, a).senders| && Enqueued(Apply(cfg, s, a).senders[i])
    requires i < |s.senders| ==> !Enqueued(s.senders[i])
    ensures i < |s.senders| && a == SenderStep(i) && s.senders[i].pc.EnqueueTask?
  {
    hide HandlerMove, LostByEnqueue, QueuesAfterEnqueue, Purge, Received, AlertAck;
  }

  ghost predicate OnlySender(s: State, i: nat, id: string) { forall j: nat :: SenderOf(s, j, id) ==> j == i }

  lemma {:induction false} OnlySenderAllAlong(cfg: Config, s: State, actions: seq<Action>, t: State, i: nat, id: string)
    requires Run(cfg, s, actions, t) && OnlySender(t, i, id)
    ensures OnlySender(s, i, id)
    decreases |actions|
  {
    if actions != [] {
      hide Apply, Enabled;
      OnlySenderAllAlong(cfg, Apply(cfg, s, actions[0]), actions[1..], t, i, id);
      SendersAdvance(cfg, s, actions[0]);
      forall j: nat | SenderOf(s, j, id) ensures j == i { assert SenderOf(Apply(cfg, s, actions[0]), j, id); }
    }
  }

  lemma QueuedByItsSender(s: State, i: nat, node: string, id: string)
    requires Always(s) && OnlySender(s, i, id) && Queued(s.inner.queues, node, id)
    ensures EnqueuedBy(s, i, node, id)
  {
    var k: nat :| k < |s.inner.queues[node]| && s.inner.queues[node][k].taskId == id;
    assert Sent(s, node, s.inner.queues[node][k]);
  }

  lemma {:induction false} QueuedUnlessDeparted(
    cfg: Config, s: State, actions: seq<Action>, t: State, i: nat, node: string, id: string)
    requires Good(cfg, s) && Run(cfg, s, actions, t) && UniqueIds(t)
    requires OnlySender(t, i, id) && EnqueuedBy(t, i, node, id)
    ensures Queued(t.inner.queues, node, id) <==>
      (EnqueuedBy(s, i, node, id) ==> Queued(s.inner.queues, node, id)) && !DepartsIn(cfg, s, actions, node, id)
    decreases |actions|
  {
    hide Apply, Enabled, Good, UniqueIds, OnlySender, Queued, EnqueuedBy, Departs;
    if actions != [] {
      var a := actions[0];
      UniqueAllAlong(cfg, s, actions, t);
      OnlySenderAllAlong(cfg, s, actions, t, i, id);
      GoodStep(cfg, s, a);
      OneStepOn(cfg, s, a, i, node, id);
      QueuedUnlessDeparted(cfg, Apply(cfg, s, a), actions[1..], t, i, node, id);
    }
  }

  /** How one step moves the two sides along. */
  lemma OneStepOn(cfg: Config, s: State, a: Action, i: nat, node: string, id: string)
    requires Good(cfg, s) && Enabled(s, a) && UniqueIds(s) && OnlySender(s, i, id)
    ensures var t := Apply(cfg, s, a);
      if EnqueuedBy(s, i, node, id) then
        EnqueuedBy(t, i, node, id) &&
        (Queued(t.inner.queues, node, id) <==>
          Queued(s.inner.queues, node, id) && !Departs(cfg, s, a, node, id))
      else
        !Queued(s.inner.queues, node, id) &&
        (EnqueuedBy(t, i, node, id) ==> Queued(t.inner.queues, node, id))
  {
    assert WhenUnique(s);
    SendersAdvance(cfg, s, a);
    if Queued(s.inner.queues, node, id) {
      QueuedByItsSender(s, i, node, id);
      DepartureHasItsReason(cfg, s, a, node, id);
    } else if EnqueuedBy(s, i, node, id) && Queued(Apply(cfg, s, a).inner.queues, node, id) {
      if a.SenderStep? && s.senders[a.i].pc.EnqueueTask? { assert a.i != i; }
      QueuedBefore(cfg, s, a, node, id);
    }
    if !EnqueuedBy(s, i, node, id) && EnqueuedBy(Apply(cfg, s, a), i, node, id) {
      EnqueueQueues(cfg, s, a, i, node, id);
    }
    hide Apply, Enabled, Always, WhenUnique, Queued, Departs;
  }

  /** Once enqueued, a task is queued for its node if and only if no step has taken it out for one of the three
      reasons: its node acknowledged it, a drain found it enqueued longer ago than the TTL, or it was the
      oldest of a full queue when another was enqueued. */
  lemma {:induction false} TaskStaysUntilReason(cfg: Config, actions: seq<Action>, t: State, i: nat)
    requires Run(cfg, START, actions, t) && UniqueIds(t) && i < |t.senders| && Enqueued(t.senders[i])
    ensures Queued(t.inner.queues, t.senders[i].node, t.senders[i].taskId) <==>
      !DepartsIn(cfg, START, actions, t.senders[i].node, t.senders[i].taskId)
  {
    BridgeTraces.StartInv(cfg);
    assert OnlySender(t, i, t.senders[i].taskId);
    QueuedUnlessDeparted(cfg, START, actions, t, i, t.senders[i].node, t.senders[i].taskId);
    hide Run, UniqueIds, DepartsIn, Queued;
  }

  // ---- the channels are bounded ----

  ghost predicate ChannelsFit(s: State) {
    s.inner.unread <= 256 && forall c :: 0 <= c < |s.handlers| ==> s.handlers[c].channel.buffered <= 64
  }

  /** The three sends wait exactly while the channel is full: a write channel with 64 messages, unless its writer
      has failed, and the update channel with 256. */
  lemma SendsWaitWhileFull(s: State, c: nat)
    requires c < |s.handlers|
    ensures var h := s.handlers[c];
      var full := h.channel.open && h.channel.buffered >= 64;
      (h.pc.SendAck? || (h.pc.Replay? && h.pc.rest != []) ==>
        forall admitted :: Enabled(s, HandlerStep(c, admitted)) <==> !full) &&
      (h.pc.Emit? || h.pc.EmitGone? ==>
        forall admitted :: Enabled(s, HandlerStep(c, admitted)) <==> s.inner.unread < 256) &&
      (forall i: nat :: i < |s.senders| && s.senders[i].pc == SendLive(c) ==>
        (Enabled(s, SenderStep(i)) <==> !full)) &&
      (forall k: nat :: k < |s.alerts| && s.alerts[k].pc == AlertSend(c) ==>
        (Enabled(s, AlertStep(k)) <==> !full))
  {
  }

  lemma OwnChannel(cfg: Config, b: Inner, c: nat, h: Handler, admitted: bool)
    requires HandlerReady(b, h) && b.unread <= 256 && h.channel.buffered <= 64
    ensures var (b', h') := HandlerMove(cfg, b, c, h, admitted); b'.unread <= 256 && h'.channel.buffered <= 64
  {
    hide AfterDrain, AfterAck, PendingOf, ExpiredIds, Purge, RegistrationAck, CapabilityOf, TakenCommand, NodeOf;
    hide PcAfterRoute, Routing.RouteMessage, Registry.Upserted, Registry.PositionIn;
  }

  lemma SenderReadsNothing(cfg: Config, b: Inner, i: nat, t: Sender)
    requires SenderReady(b, t)
    ensures SenderMove(cfg, b, i, t).0.unread == b.unread
  {
    hide LostByEnqueue, QueuesAfterEnqueue, Purge;
  }

  lemma ChannelsStep(cfg: Config, s: State, a: Action)
    requires Enabled(s, a) && ChannelsFit(s)
    ensures ChannelsFit(Apply(cfg, s, a))
  {
    if a.HandlerStep? {
      OwnChannel(cfg, s.inner, a.c, s.handlers[a.c], a.admitted);
      hide HandlerMove, HandlerReady;
    } else if a.SenderStep? {
      if !s.senders[a.i].pc.SendLive? { SenderReadsNothing(cfg, s.inner, a.i, s.senders[a.i]); }
      hide SenderMove;
    }
    hide Routing.ExtractTaskId, AlertAck;
  }

  /** In every reachable state a write channel holds at most 64 messages and the update channel at most 256. */
  lemma {:induction false} ChannelsAreBounded(cfg: Config, s: State, actions: seq<Action>, t: State)
    requires Run(cfg, s, actions, t) && ChannelsFit(s)
    ensures ChannelsFit(t)
    decreases |actions|
  {
    if actions != [] {
      ChannelsStep(cfg, s, actions[0]);
      hide Apply, Enabled, ChannelsFit;
      ChannelsAreBounded(cfg, Apply(cfg, s, actions[0]), actions[1..], t);
    }
  }

  // ---- what goes into a channel comes out, one message at a time ----

  /** Messages of a connection handed to its writer task so far, as long as the writer lives. */
  function Written(s: State, c: nat): int {
    if c < |s.handlers| then |s.handlers[c].channel.offers| - s.handlers[c].channel.buffered else 0
  }

  function Consumed(s: State): int { |s.inner.updates| - s.inner.unread }

  function Times(actions: seq<Action>, a: Action): nat {
    if actions == [] then 0 else (if actions[0] == a then 1 else 0) + Times(actions[1..], a)
  }

  predicate Writing(s: State, c: nat) { c < |s.handlers| ==> s.handlers[c].channel.open }

  lemma OwnWrites(cfg: Config, b: Inner, c: nat, h: Handler, admitted: bool)
    requires HandlerReady(b, h)
    ensures var (b', h') := HandlerMove(cfg, b, c, h, admitted);
      |b'.updates| - b'.unread == |b.updates| - b.unread && h'.channel.open == h.channel.open &&
      (h.channel.open ==>
        |h'.channel.offers| - h'.channel.buffered == |h.channel.offers| - h.channel.buffered)
  {
    hide AfterDrain, AfterAck, PendingOf, ExpiredIds, Purge, RegistrationAck, CapabilityOf, TakenCommand, NodeOf;
    hide PcAfterRoute, Routing.RouteMessage, Registry.Upserted, Registry.PositionIn;
  }

  lemma WrittenStep(cfg: Config, s: State, a: Action, c: nat)
    requires Enabled(s, a) && Writing(Apply(cfg, s, a), c)
    ensures var t := Apply(cfg, s, a);
      Writing(s, c) && Written(t, c) == Written(s, c) + (if a == WriterStep(c) then 1 else 0) &&
      Consumed(t) == Consumed(s) + (if a == Consume then 1 else 0)
  {
    if a.HandlerStep? {
      OwnWrites(cfg, s.inner, a.c, s.handlers[a.c], a.admitted);
      hide HandlerMove, HandlerReady;
    } else if a.SenderStep? {
      if !s.senders[a.i].pc.SendLive? {
        SenderReadsNothing(cfg, s.inner, a.i, s.senders[a.i]);
        BridgeTraces.SenderKeepsUpdates(cfg, s.inner, a.i, s.senders[a.i]);
      }
      hide SenderMove;
    }
    hide Routing.ExtractTaskId, AlertAck;
  }

  lemma {:induction false} WrittenOver(cfg: Config, s: State, actions: seq<Action>, t: State, c: nat)
    requires Run(cfg, s, actions, t) && Writing(t, c)
    ensures Writing(s, c) && Written(t, c) == Written(s, c) + Times(actions, WriterStep(c))
    ensures Consumed(t) == Consumed(s) + Times(actions, Consume)
    decreases |actions|
  {
    if actions != [] {
      hide Apply, Enabled, Writing, Written, Consumed;
      WrittenOver(cfg, Apply(cfg, s, actions[0]), actions[1..], t, c);
      WrittenStep(cfg, s, actions[0], c);
    }
  }

  /** Nothing is lost in a channel. As long as its writer lives, the messages offered to a connection are those
      its writer took, one in each of its steps, and those that wait; and the updates sent to the application
      are those it consumed, one at a time, and those that wait. */
  lemma {:induction false} ChannelsKeepTheirMessages(cfg: Config, actions: seq<Action>, t: State, c: nat)
    requires Run(cfg, START, actions, t) && c < |t.handlers| && t.handlers[c].channel.open
    ensures |t.handlers[c].channel.offers| == Times(actions, WriterStep(c)) + t.handlers[c].channel.buffered
    ensures |t.inner.updates| == Times(actions, Consume) + t.inner.unread
  {
    WrittenOver(cfg, START, actions, t, c);
    hide Run;
  }
}
