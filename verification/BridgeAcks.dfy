// What an acknowledgement of a still-queued task achieves: its command can no longer be purged, so exactly
// one acknowledgement delivers it. Which one is decided by the lookup, not by the node that acknowledges.

module BridgeAcks {
  import opened Base
  import opened Sapient
  import opened TaskQueues
  import opened Bridge
  import opened BridgeTasks
  import opened BridgeCommands
  import opened BridgeDelivery
  import Routing

  function SenderPurges(pc: SenderPc): set<string> { if pc.PurgeLost? then pc.ids else {} }

  function HandlerPurges(pc: HandlerPc): set<string> { if pc.PurgeExpired? then pc.ids else {} }

  /** The task was lost: its command has been purged, or is about to be. */
  ghost predicate Doomed(s: State, id: string) {
    (exists i :: 0 <= i < |s.senders| && id in SenderPurges(s.senders[i].pc)) ||
    (exists c :: 0 <= c < |s.handlers| && id in HandlerPurges(s.handlers[c].pc)) ||
    (exists cmd :: (id, cmd) in s.inner.purged)
  }

  /** The task has been enqueued and has left the queues. */
  ghost predicate Gone(s: State, id: string) {
    !QueuedSomewhere(s.inner.queues, id) && exists i: nat :: SenderOf(s, i, id) && Enqueued(s.senders[i])
  }

  ghost predicate Settled(s: State, id: string) { Gone(s, id) && !Doomed(s, id) }

  /** Ids a step takes out of the queues as lost. */
  function NewlyLost(cfg: Config, s: State, a: Action): set<string> {
    match a
    case SenderStep(i) =>
      if i < |s.senders| && s.senders[i].pc.EnqueueTask? then LostByEnqueue(cfg, s.inner, s.senders[i].node) else {}
    case HandlerStep(c, _) =>
      if c < |s.handlers| && s.handlers[c].pc.DrainQueue? then ExpiredIds(s.inner.queues, s.inner.now) else {}
    case _ => {}
  }

  // ---- doom comes only from a loss ----

  lemma SenderDoom(cfg: Config, b: Inner, i: nat, t: Sender, id: string)
    requires SenderReady(b, t)
    ensures var (b', pc) := SenderMove(cfg, b, i, t);
      (id in SenderPurges(pc) ==> t.pc.EnqueueTask? && id in LostByEnqueue(cfg, b, t.node)) &&
      (forall cmd :: (id, cmd) in b'.purged ==> (id, cmd) in b.purged || id in SenderPurges(t.pc))
  {
    hide LostByEnqueue, QueuesAfterEnqueue;
  }

  lemma HandlerDoom(cfg: Config, b: Inner, c: nat, h: Handler, admitted: bool, id: string)
    requires HandlerReady(b, h)
    ensures var (b', h') := HandlerMove(cfg, b, c, h, admitted);
      (id in HandlerPurges(h'.pc) ==> h.pc.DrainQueue? && id in ExpiredIds(b.queues, b.now)) &&
      (forall cmd :: (id, cmd) in b'.purged ==> (id, cmd) in b.purged || id in HandlerPurges(h.pc))
  {
    hide ExpiredIds, AfterDrain, AfterAck, PendingOf, RegistrationAck, CapabilityOf, NodeOf, TakenCommand;
    hide PcAfterRoute, Routing.RouteMessage, Registry.Upserted, Registry.PositionIn;
    if h.pc.Route? {
      RouteFits(cfg, b, h, admitted);
    }
  }

  lemma DoomComesFromLoss(cfg: Config, s: State, a: Action, id: string)
    requires Enabled(s, a) && Doomed(Apply(cfg, s, a), id)
    ensures Doomed(s, id) || id in NewlyLost(cfg, s, a)
  {
    hide LostByEnqueue, ExpiredIds, Routing.ExtractTaskId;
    match a
    case SenderStep(i) =>
      if !s.senders[i].pc.SendLive? {
        SenderDoom(cfg, s.inner, i, s.senders[i], id);
        hide SenderMove;
      }
    case HandlerStep(c, admitted) =>
      HandlerDoom(cfg, s.inner, c, s.handlers[c], admitted, id);
      hide HandlerMove;
    case _ =>
  }

  // ---- a lost or acknowledged task is gone for good ----

  lemma LostWasQueued(cfg: Config, s: State, a: Action, id: string)
    requires id in NewlyLost(cfg, s, a)
    ensures QueuedSomewhere(s.inner.queues, id)
  {
    var qs, now := s.inner.queues, s.inner.now;
    if id in ExpiredIds(qs, now) {
      var n, k :| n in qs && 0 <= k < |qs[n]| && Expired(qs[n][k], now) && qs[n][k].taskId == id;
      assert Queued(qs, n, id);
    } else {
      var node := s.senders[a.i].node;
      AcksAndDrainsShrink(qs, now, "", "");
      var mid := AfterDrain(qs, now);
      assert mid[node][0] in qs[node];
      var k: nat :| k < |qs[node]| && qs[node][k] == mid[node][0];
      assert Queued(qs, node, id);
    }
  }

  lemma GoneStays(cfg: Config, s: State, a: Action, id: string)
    requires Enabled(s, a) && Always(s) && UniqueIds(s) && Gone(s, id)
    ensures Gone(Apply(cfg, s, a), id)
  {
    var t := Apply(cfg, s, a);
    SendersAdvance(cfg, s, a);
    var i: nat :| SenderOf(s, i, id) && Enqueued(s.senders[i]);
    if QueuedSomewhere(t.inner.queues, id) {
      var n :| n in t.inner.queues && Queued(t.inner.queues, n, id);
      QueuedBefore(cfg, s, a, n, id);
    }
    hide Apply, Enabled, Always;
    assert SenderOf(t, i, id);
  }

  /** The only copy of a queued task is the one its sender pushed. */
  lemma OneCopy(s: State, n: string, k: nat, m: string, l: nat)
    requires QueuesSent(s) && UniqueIds(s) && QueuesDistinct(s.inner.queues)
    requires n in s.inner.queues && k < |s.inner.queues[n]| && m in s.inner.queues && l < |s.inner.queues[m]|
    requires s.inner.queues[n][k].taskId == s.inner.queues[m][l].taskId
    ensures n == m && k == l
  {
    assert Sent(s, n, s.inner.queues[n][k]) && Sent(s, m, s.inner.queues[m][l]);
    assert DistinctIds(s.inner.queues[n]);
  }

  lemma QueuedHasSender(s: State, n: string, id: string)
    requires QueuesSent(s) && Queued(s.inner.queues, n, id)
    ensures exists i: nat :: SenderOf(s, i, id) && Enqueued(s.senders[i])
  {
    var k: nat :| k < |s.inner.queues[n]| && s.inner.queues[n][k].taskId == id;
    assert Sent(s, n, s.inner.queues[n][k]);
  }

  /** A drain takes out every task it reports: none is left under another node or further down. */
  lemma DrainTakesAll(s: State, id: string)
    requires QueuesSent(s) && UniqueIds(s) && QueuesDistinct(s.inner.queues)
    requires id in ExpiredIds(s.inner.queues, s.inner.now)
    ensures !QueuedSomewhere(AfterDrain(s.inner.queues, s.inner.now), id)
  {
    var qs, now := s.inner.queues, s.inner.now;
    var n, k: nat :| n in qs && k < |qs[n]| && Expired(qs[n][k], now) && qs[n][k].taskId == id;
    if QueuedSomewhere(AfterDrain(qs, now), id) {
      var m :| m in AfterDrain(qs, now) && Queued(AfterDrain(qs, now), m, id);
      var r := Retain(LiveAt(now), qs[m]);
      var j: nat :| j < |r| && r[j].taskId == id;
      RetainMembers(LiveAt(now), qs[m]);
      assert r[j] in qs[m];
      var l: nat :| l < |qs[m]| && qs[m][l] == r[j];
      OneCopy(s, n, k, m, l);
    }
  }

  lemma EvictionTakesAll(cfg: Config, s: State, i: nat, id: string)
    requires Always(s) && UniqueIds(s) && QueuesDistinct(s.inner.queues)
    requires i < |s.senders| && s.senders[i].pc.EnqueueTask? && id in LostByEnqueue(cfg, s.inner, s.senders[i].node)
    ensures !QueuedSomewhere(QueuesAfterEnqueue(cfg, s.inner, s.senders[i]), id)
  {
    var qs, now, u := s.inner.queues, s.inner.now, s.senders[i];
    var task := QueuedTask(u.msg, u.taskId, now, cfg.ttl);
    var mid, after := AfterDrain(qs, now), QueuesAfterEnqueue(cfg, s.inner, u);
    AcksAndDrainsShrink(qs, now, "", "");
    LostWasQueued(cfg, s, SenderStep(i), id);
    OwnIdNotQueued(s, i, id);
    if id in ExpiredIds(qs, now) {
      DrainTakesAll(s, id);
      hide AfterDrain, Always;
      PushKeepsOut(mid, u.node, task, cfg.maxDepth, id);
    } else {
      assert MustEvict(PendingOf(mid, u.node), cfg.maxDepth) && mid[u.node][0].taskId == id;
      hide AfterDrain, QueuesAfterEnqueue;
      forall m | m in after ensures !Queued(after, m, id) {
        EvictedStaysOut(s, mid, u.node, task, cfg.maxDepth, m, id);
      }
    }
  }

  lemma OwnIdNotQueued(s: State, i: nat, id: string)
    requires QueuesSent(s) && UniqueIds(s) && i < |s.senders| && !Enqueued(s.senders[i]) &&
      QueuedSomewhere(s.inner.queues, id)
    ensures id != s.senders[i].taskId
  {
    var n :| n in s.inner.queues && Queued(s.inner.queues, n, id);
    var k: nat :| k < |s.inner.queues[n]| && s.inner.queues[n][k].taskId == id;
    NotQueuedYet(s, i, n, s.inner.queues[n][k]);
  }

  lemma PushKeepsOut(qs: Queues, node: string, t: QueuedTask, maxDepth: nat, id: string)
    requires !QueuedSomewhere(qs, id) && id != t.taskId
    ensures !QueuedSomewhere(AfterEnqueue(qs, node, t, maxDepth), id)
  {
    var after: Queues := AfterEnqueue(qs, node, t, maxDepth);
    forall m | m in after ensures !Queued(after, m, id) {
      assert m in qs ==> !Queued(qs, m, id);
      if m == node {
        var q := PendingOf(qs, node);
        assert forall k :: 0 <= k < |q| ==> q[k].taskId != id;
        assert after[m] == (if MustEvict(q, maxDepth) then q[1..] else q) + [t];
      }
    }
  }

  lemma EvictedStaysOut(s: State, mid: Queues, node: string, t: QueuedTask, maxDepth: nat, m: string, id: string)
    requires QueuesSent(s) && UniqueIds(s) && QueuesDistinct(s.inner.queues) && Shrunk(s.inner.queues, mid)
    requires MustEvict(PendingOf(mid, node), maxDepth) && mid[node][0].taskId == id && id != t.taskId
    ensures !Queued(AfterEnqueue(mid, node, t, maxDepth), m, id)
  {
    if m == node {
      var q := mid[node];
      assert DistinctIds(q);
      assert forall k :: 0 < k < |q| ==> q[k].taskId != q[0].taskId;
      assert AfterEnqueue(mid, node, t, maxDepth)[node] == q[1..] + [t];
    } else if m in mid {
      forall k | 0 <= k < |mid[m]| ensures mid[m][k].taskId != id {
        OtherNode(s, mid, node, 0, m, k);
      }
    }
  }

  /** No two nodes queue the same task. */
  lemma OtherNode(s: State, mid: Queues, n: string, k: nat, m: string, l: nat)
    requires QueuesSent(s) && UniqueIds(s) && Shrunk(s.inner.queues, mid)
    requires n in mid && k < |mid[n]| && m in mid && l < |mid[m]| && n != m
    ensures mid[n][k].taskId != mid[m][l].taskId
  {
    assert mid[n][k] in mid[n] && mid[m][l] in mid[m];
    assert Sent(s, n, mid[n][k]) && Sent(s, m, mid[m][l]);
  }

  lemma LossTakesAll(cfg: Config, s: State, a: Action, id: string)
    requires Enabled(s, a) && Always(s) && UniqueIds(s) && QueuesDistinct(s.inner.queues)
    requires id in NewlyLost(cfg, s, a)
    ensures !QueuedSomewhere(Apply(cfg, s, a).inner.queues, id)
  {
    if a.SenderStep? {
      EvictionTakesAll(cfg, s, a.i, id);
      SenderShared(cfg, s.inner, a.i, s.senders[a.i]);
      hide SenderMove, Always, UniqueIds, LostByEnqueue, QueuesAfterEnqueue, QueuedSomewhere;
    } else {
      DrainTakesAll(s, id);
      hide Always, UniqueIds, AfterDrain, ExpiredIds, QueuedSomewhere, Purge, PendingOf;
    }
  }

  lemma LostIsGone(cfg: Config, s: State, a: Action, id: string)
    requires Enabled(s, a) && Always(s) && UniqueIds(s) && QueuesDistinct(s.inner.queues)
    requires id in NewlyLost(cfg, s, a)
    ensures Gone(Apply(cfg, s, a), id)
  {
    var t := Apply(cfg, s, a);
    LostWasQueued(cfg, s, a, id);
    LossTakesAll(cfg, s, a, id);
    SendersAdvance(cfg, s, a);
    assert QueuesSent(s);
    hide Apply, Enabled, Always, UniqueIds, NewlyLost;
    var n :| n in s.inner.queues && Queued(s.inner.queues, n, id);
    QueuedHasSender(s, n, id);
    hide QueuesSent;
    var i: nat :| SenderOf(s, i, id) && Enqueued(s.senders[i]);
    assert SenderOf(t, i, id);
  }

  // ---- the invariant ----

  ghost predicate DoomedAreGone(s: State) { forall id :: Doomed(s, id) ==> Gone(s, id) }

  ghost predicate Inv(s: State) {
    Always(s) && PlainUpdates(s) && (UniqueIds(s) ==> WhenUnique(s) && DoomedAreGone(s) && AllConserved(s))
  }

  lemma DoomedStep(cfg: Config, s: State, a: Action)
    requires Enabled(s, a) && Always(s) && UniqueIds(s) && QueuesDistinct(s.inner.queues) && DoomedAreGone(s)
    ensures DoomedAreGone(Apply(cfg, s, a))
  {
    var t := Apply(cfg, s, a);
    hide Apply, Enabled, Always, UniqueIds, QueuesDistinct, NewlyLost, Doomed, Gone;
    forall id | Doomed(t, id) ensures Gone(t, id) {
      DoomComesFromLoss(cfg, s, a, id);
      if Doomed(s, id) { GoneStays(cfg, s, a, id); } else { LostIsGone(cfg, s, a, id); }
    }
  }

  lemma InvStep(cfg: Config, s: State, a: Action)
    requires Enabled(s, a) && Inv(s)
    ensures Inv(Apply(cfg, s, a))
  {
    AlwaysStep(cfg, s, a);
    PlainStep(cfg, s, a);
    hide Apply, Enabled, Always, PlainUpdates, UniqueIds, DoomedAreGone, AllConserved;
    if UniqueIds(Apply(cfg, s, a)) {
      UniqueBefore(cfg, s, a);
      WhenUniqueStep(cfg, s, a);
      DoomedStep(cfg, s, a);
      ConservedStep(cfg, s, a);
    }
  }

  lemma {:induction false} InvHolds(cfg: Config, s: State, actions: seq<Action>, t: State)
    requires Inv(s) && Run(cfg, s, actions, t)
    ensures Inv(t)
    decreases |actions|
  {
    if actions != [] {
      InvStep(cfg, s, actions[0]);
      hide Inv, Apply, Enabled;
      InvHolds(cfg, Apply(cfg, s, actions[0]), actions[1..], t);
    }
  }

  lemma StartInv()
    ensures Inv(START)
  {
    forall id, cmd ensures Conserved(START, id, cmd) { NothingGiven(id, cmd); }
  }

  lemma {:induction false} UniqueAllAlong(cfg: Config, s: State, actions: seq<Action>, t: State)
    requires Run(cfg, s, actions, t) && UniqueIds(t)
    ensures UniqueIds(s)
    decreases |actions|
  {
    if actions != [] {
      hide UniqueIds, Apply, Enabled;
      UniqueAllAlong(cfg, Apply(cfg, s, actions[0]), actions[1..], t);
      UniqueBefore(cfg, s, actions[0]);
    }
  }

  lemma {:induction false} SettledStays(cfg: Config, s: State, actions: seq<Action>, t: State, id: string)
    requires Run(cfg, s, actions, t) && UniqueIds(t) && Inv(s) && Settled(s, id)
    ensures Settled(t, id)
    decreases |actions|
  {
    if actions != [] {
      var a := actions[0];
      UniqueAllAlong(cfg, s, actions, t);
      InvStep(cfg, s, a);
      hide Apply, Enabled, Always, UniqueIds, NewlyLost, Doomed, Gone, WhenUnique, AllConserved, DoomedAreGone,
        PlainUpdates;
      GoneStays(cfg, s, a, id);
      if Doomed(Apply(cfg, s, a), id) {
        DoomComesFromLoss(cfg, s, a, id);
        GoneIsNotLost(cfg, s, a, id);
      }
      SettledStays(cfg, Apply(cfg, s, a), actions[1..], t, id);
    }
  }

  lemma GoneIsNotLost(cfg: Config, s: State, a: Action, id: string)
    requires Gone(s, id)
    ensures id !in NewlyLost(cfg, s, a)
  {
    if id in NewlyLost(cfg, s, a) { LostWasQueued(cfg, s, a, id); }
  }

  /** Acknowledging a queued task settles it: it leaves the queues, and was never lost. */
  lemma AckSettles(cfg: Config, s: State, c: nat, admitted: bool)
    requires Inv(s) && UniqueIds(s) && Enabled(s, HandlerStep(c, admitted)) && s.handlers[c].pc.Dequeue?
    requires Queued(s.inner.queues, s.handlers[c].pc.node, s.handlers[c].pc.taskId)
    ensures Settled(Apply(cfg, s, HandlerStep(c, admitted)), s.handlers[c].pc.taskId)
  {
    var a, n, id := HandlerStep(c, admitted), s.handlers[c].pc.node, s.handlers[c].pc.taskId;
    var t := Apply(cfg, s, a);
    assert t.inner.queues == AfterAck(s.inner.queues, n, id) && NewlyLost(cfg, s, a) == {};
    assert QueuesSent(s) && DoomedAreGone(s);
    hide Apply, Enabled, Always, WhenUnique, AllConserved, PlainUpdates, Doomed, NewlyLost;
    assert QueuedSomewhere(s.inner.queues, id);
    if Doomed(t, id) { DoomComesFromLoss(cfg, s, a, id); }
    QueuedHasSender(s, n, id);
    SendersAdvance(cfg, s, a);
    var i: nat :| SenderOf(s, i, id) && Enqueued(s.senders[i]);
    AckTakesAll(s, n, id);
    hide AfterAck, QueuesSent, UniqueIds, DoomedAreGone;
    assert SenderOf(t, i, id);
  }

  lemma AckTakesAll(s: State, n: string, id: string)
    requires QueuesSent(s) && UniqueIds(s) && Queued(s.inner.queues, n, id)
    ensures !QueuedSomewhere(AfterAck(s.inner.queues, n, id), id)
  {
    var qs: Queues := s.inner.queues;
    var k: nat :| k < |qs[n]| && qs[n][k].taskId == id;
    RetainMembers(OtherThan(id), qs[n]);
    hide Retain;
    var after: Queues := AfterAck(qs, n, id);
    forall m | m in after ensures !Queued(after, m, id) {
      if m == n {
        assert forall t :: t in after[n] ==> t.taskId != id;
      } else {
        forall j | 0 <= j < |qs[m]| ensures qs[m][j].taskId != id { OtherNode(s, qs, n, k, m, j); }
      }
    }
  }

  // ---- main results ----

  /** Once a still-queued task has been acknowledged by its node, its command is delivered: from then on it
      is in the map, in one handler's hand or in one delivered update, never purged. The first lookup finds it,
      and every later one finds nothing. */
  lemma {:induction false} AckedTaskDeliversItsCommand(
    cfg: Config, before: seq<Action>, s: State, c: nat, admitted: bool, after: seq<Action>, t: State, cmd: string)
    requires Run(cfg, START, before, s) && Enabled(s, HandlerStep(c, admitted)) && s.handlers[c].pc.Dequeue?
    requires Queued(s.inner.queues, s.handlers[c].pc.node, s.handlers[c].pc.taskId)
    requires Run(cfg, Apply(cfg, s, HandlerStep(c, admitted)), after, t) && UniqueIds(t)
    requires exists i :: 0 <= i < |s.senders| && IsOwner(s.senders[i], s.handlers[c].pc.taskId, cmd)
    ensures var id := s.handlers[c].pc.taskId;
      (id, cmd) !in t.inner.purged &&
      Bit(InMap(t.inner, id, cmd)) + InHand(t, id, cmd) + Delivered(t, id, cmd) == 1 &&
      TakenCommand(t.inner, id) == if InHand(t, id, cmd) + Delivered(t, id, cmd) == 0 then Some(cmd) else None
  {
    var id := s.handlers[c].pc.taskId;
    var a := HandlerStep(c, admitted);
    var u := Apply(cfg, s, a);
    StartInv();
    InvHolds(cfg, START, before, s);
    UniqueAllAlong(cfg, u, after, t);
    UniqueBefore(cfg, s, a);
    AckSettles(cfg, s, c, admitted);
    InvStep(cfg, s, a);
    SettledStays(cfg, u, after, t, id);
    InvHolds(cfg, u, after, t);
    hide Enabled, Apply, Always, WhenUnique, PlainUpdates, DoomedAreGone, Doomed, QueuedSomewhere;
    OwnerStays(cfg, s, a, id, cmd);
    OwnerStaysAll(cfg, u, after, t, id, cmd);
    CountedOnce(t, id, cmd);
  }

  ghost predicate HasOwner(s: State, id: string, cmd: string) {
    exists i :: 0 <= i < |s.senders| && IsOwner(s.senders[i], id, cmd)
  }

  lemma OwnerStays(cfg: Config, s: State, a: Action, id: string, cmd: string)
    requires Enabled(s, a) && HasOwner(s, id, cmd)
    ensures HasOwner(Apply(cfg, s, a), id, cmd)
  {
    SendersAdvance(cfg, s, a);
    var i :| 0 <= i < |s.senders| && IsOwner(s.senders[i], id, cmd);
    hide Apply, Enabled;
    assert IsOwner(Apply(cfg, s, a).senders[i], id, cmd);
  }

  lemma {:induction false} OwnerStaysAll(cfg: Config, s: State, actions: seq<Action>, t: State, id: string, cmd: string)
    requires Run(cfg, s, actions, t) && HasOwner(s, id, cmd)
    ensures HasOwner(t, id, cmd)
    decreases |actions|
  {
    if actions != [] {
      hide HasOwner, Apply, Enabled;
      OwnerStays(cfg, s, actions[0], id, cmd);
      OwnerStaysAll(cfg, Apply(cfg, s, actions[0]), actions[1..], t, id, cmd);
    }
  }

  /** Where the command of an enqueued task that was not lost can be. */
  lemma CountedOnce(t: State, id: string, cmd: string)
    requires UniqueIds(t) && AllConserved(t) && !Doomed(t, id) && HasOwner(t, id, cmd)
    requires exists i: nat :: SenderOf(t, i, id) && Enqueued(t.senders[i])
    ensures (id, cmd) !in t.inner.purged
    ensures Bit(InMap(t.inner, id, cmd)) + InHand(t, id, cmd) + Delivered(t, id, cmd) == 1
    ensures TakenCommand(t.inner, id) == if InHand(t, id, cmd) + Delivered(t, id, cmd) == 0 then Some(cmd) else None
  {
    GivenOnce(t, id, cmd);
    if id in t.inner.commands {
      var other := t.inner.commands[id];
      assert Conserved(t, id, other);
      OneCommandPerTask(t, id, cmd, other);
    }
    assert Conserved(t, id, cmd);
    var i: nat :| SenderOf(t, i, id) && Enqueued(t.senders[i]);
    assert NotInserted(t, id, cmd) == 0 by { NoneWaiting(t.senders, i, id, cmd); }
    hide Sum;
  }

  lemma {:induction false} NoneWaiting(ts: seq<Sender>, i: nat, id: string, cmd: string)
    requires forall x, y :: 0 <= x < y < |ts| ==> ts[x].taskId != ts[y].taskId
    requires i < |ts| && ts[i].taskId == id && Enqueued(ts[i])
    ensures Sum(WaitingBit(id, cmd), ts) == 0
  {
    forall t | t in ts ensures WaitingBit(id, cmd)(t) == 0 {
      var k: nat :| k < |ts| && ts[k] == t;
    }
    SumZero(WaitingBit(id, cmd), ts);
  }

  /** When a still-queued task has lost its command: exactly when some acknowledgement already carries it, be
      it in a handler's hand or delivered. */
  lemma {:induction false} QueuedTaskHasCommandIff(
    cfg: Config, actions: seq<Action>, t: State, n: string, id: string, cmd: string)
    requires Run(cfg, START, actions, t) && UniqueIds(t)
    requires Queued(t.inner.queues, n, id) && HasOwner(t, id, cmd)
    ensures TakenCommand(t.inner, id) == Some(cmd) <==> InHand(t, id, cmd) + Delivered(t, id, cmd) == 0
  {
    StartInv();
    InvHolds(cfg, START, actions, t);
    QueuedHasSender(t, n, id);
    assert QueuedSomewhere(t.inner.queues, id);
    assert !Doomed(t, id) by { assert DoomedAreGone(t); }
    hide Run, Always, WhenUnique, PlainUpdates, Doomed, QueuedSomewhere;
    CountedOnce(t, id, cmd);
  }

  lemma {:induction false} RunJoins(cfg: Config, s: State, xs: seq<Action>, t: State, ys: seq<Action>, u: State)
    requires Run(cfg, s, xs, t) && Run(cfg, t, ys, u)
    ensures Run(cfg, s, xs + ys, u)
    decreases |xs|
  {
    hide Apply, Enabled;
    if xs == [] {
      assert xs + ys == ys;
    } else {
      RunJoins(cfg, Apply(cfg, s, xs[0]), xs[1..], t, ys, u);
      assert (xs + ys)[1..] == xs[1..] + ys;
    }
  }

  lemma {:induction false} RunTwo(cfg: Config, s: State, a: Action, b: Action)
    requires Enabled(s, a) && Enabled(Apply(cfg, s, a), b)
    ensures Run(cfg, s, [a, b], Apply(cfg, Apply(cfg, s, a), b))
  {
    hide Apply, Enabled;
    var t := Apply(cfg, s, a);
    assert Run(cfg, Apply(cfg, t, b), [], Apply(cfg, t, b));
    assert [b][1..] == [] && [a, b][1..] == [b];
    assert Run(cfg, t, [b], Apply(cfg, t, b));
  }

  function AckFrom(node: string, id: string): SapientMessage {
    SapientMessage(Some(node), None, Some(ContentTaskAck(Some(id), Some(1))))
  }

  lemma AckArrives(cfg: Config, s: State, c: nat, node: string, id: string) returns (t: State)
    requires c < |s.handlers| && s.handlers[c].pc.Reading?
    ensures Run(cfg, s, [Receive(c, AckFrom(node, id)), HandlerStep(c, true)], t)
    ensures t == s.(handlers := s.handlers[c := s.handlers[c].(
      pc := Dequeue(node, id, AckAccepted), heard := s.handlers[c].heard + [AckFrom(node, id)],
      verdicts := s.handlers[c].verdicts + [true])])
  {
    hide Purge, AfterDrain, AfterAck, ExpiredIds, PendingOf;
    RunTwo(cfg, s, Receive(c, AckFrom(node, id)), HandlerStep(c, true));
    hide Run;
    t := Apply(cfg, Apply(cfg, s, Receive(c, AckFrom(node, id))), HandlerStep(c, true));
  }

  lemma AckLooksUp(cfg: Config, s: State, c: nat) returns (t: State)
    requires c < |s.handlers| && s.handlers[c].pc.Dequeue? && s.inner.queueOwner.None?
    ensures Run(cfg, s, [HandlerStep(c, true), HandlerStep(c, true)], t) && |t.handlers| == |s.handlers|
    ensures var Dequeue(node, id, status) := s.handlers[c].pc;
      t.handlers[c].pc == Emit(TaskAcknowledged(node, id, TakenCommand(s.inner, id), status)) &&
      t.inner.queues == AfterAck(s.inner.queues, node, id) && t.inner.commands == s.inner.commands - {id}
  {
    hide Purge, AfterDrain, AfterAck, ExpiredIds, PendingOf, PcAfterRoute;
    RunTwo(cfg, s, HandlerStep(c, true), HandlerStep(c, true));
    hide Run;
    t := Apply(cfg, Apply(cfg, s, HandlerStep(c, true)), HandlerStep(c, true));
  }

  /** The lookup does not ask which node acknowledges: an acknowledgement from node `b` takes the command of
      a task that is, and stays, queued for node `a`. */
  lemma ForeignAckTakesCommand(cfg: Config, s: State, c: nat, a: string, b: string, id: string)
    returns (actions: seq<Action>, t: State)
    requires c < |s.handlers| && s.handlers[c].pc.Reading? && s.inner.queueOwner.None?
    requires id in s.inner.commands && Queued(s.inner.queues, a, id) && a != b
    ensures Run(cfg, s, actions, t) && |t.handlers| == |s.handlers|
    ensures t.handlers[c].pc == Emit(TaskAcknowledged(b, id, Some(s.inner.commands[id]), AckAccepted))
    ensures Queued(t.inner.queues, a, id) && id !in t.inner.commands
  {
    hide Run;
    var mid := AckArrives(cfg, s, c, b, id);
    t := AckLooksUp(cfg, mid, c);
    var first, last := [Receive(c, AckFrom(b, id)), HandlerStep(c, true)], [HandlerStep(c, true), HandlerStep(c, true)];
    RunJoins(cfg, s, first, mid, last, t);
    AckKeepsOthers(s.inner.queues, b, id, a, id);
    actions := first + last;
  }
}
