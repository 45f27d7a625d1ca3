// What one connection sends and reports over its life: one acknowledgement and an ordered, unexpired replay
// if it ever registered, and one final disconnect.

module BridgeTraces {
  import opened Base
  import opened Sapient
  import opened TaskQueues
  import opened Bridge
  import opened BridgeTasks
  import BridgeLocks
  import BridgeAcks
  import Registry
  import Routing

  // ---- the shape of one connection ----

  /** What the handler itself has queued on its write channel, live sends left aside. */
  function Own(os: seq<Offer>): seq<Offer> {
    if os == [] then []
    else Own(os[..|os| - 1]) + (if os[|os| - 1].origin.Live() then [] else [os[|os| - 1]])
  }

  lemma {:induction false} OwnSent(os: seq<Offer>, o: Offer)
    ensures Own(os + [o]) == Own(os) + (if o.origin.Live() then [] else [o])
  {
    assert (os + [o])[..|os|] == os;
  }

  function Replays(q: Queue): (os: seq<Offer>)
    ensures |os| == |q|
    ensures forall k :: 0 <= k < |q| ==> os[k] == Offer(FromReplay, q[k].msg)
  {
    if q == [] then [] else [Offer(FromReplay, q[0].msg)] + Replays(q[1..])
  }

  lemma ReplaysNext(q: Queue, k: nat)
    requires k < |q|
    ensures Replays(q[..k + 1]) == Replays(q[..k]) + [Offer(FromReplay, q[k].msg)]
  {
  }

  predicate AckPending(h: Handler) { h.registered.None? || h.pc.Publish? || h.pc.SendAck? }

  /** How many tasks of the snapshot have been replayed. */
  function Replayed(h: Handler): int {
    if h.pc.Replay? then |h.snapshot| - |h.pc.rest| else if AckPending(h) || DrainPending(h) then 0 else |h.snapshot|
  }

  predicate ReplayFits(h: Handler) {
    0 <= Replayed(h) <= |h.snapshot| && (h.pc.Replay? ==> h.pc.rest == h.snapshot[Replayed(h)..]) &&
    (BeforeSnapshot(h) ==> h.snapshot == [])
  }

  ghost predicate OffersFit(cfg: Config, h: Handler)
    requires ReplayFits(h)
  {
    Own(h.channel.offers) ==
      if AckPending(h) then []
      else [Offer(FromAck, RegistrationAck(cfg, NodeOf(h)))] + Replays(h.snapshot[..Replayed(h)])
  }

  predicate NoGone(us: seq<SapientUpdate>) { forall u :: u in us ==> !u.NodeDisconnected? }

  ghost predicate UpdatesFit(h: Handler) {
    (h.pc.Emit? || h.pc.UpsertNode? ==> !h.pc.update.NodeDisconnected?) &&
    if h.pc.Closed? && h.registered.Some? then
      h.emitted != [] && h.emitted[|h.emitted| - 1] == NodeDisconnected(NodeOf(h)) &&
        NoGone(h.emitted[..|h.emitted| - 1])
    else NoGone(h.emitted)
  }

  ghost predicate Shaped(cfg: Config, h: Handler) {
    PcFits(h) && ReplayFits(h) && OffersFit(cfg, h) && UpdatesFit(h)
  }

  lemma HandlerKeepsOffers(cfg: Config, b: Inner, c: nat, h: Handler, admitted: bool)
    requires HandlerReady(b, h) && PcFits(h) && ReplayFits(h) && OffersFit(cfg, h)
    ensures var h' := HandlerMove(cfg, b, c, h, admitted).1; PcFits(h') && ReplayFits(h') && OffersFit(cfg, h')
  {
    hide ExpiredIds, AfterDrain, AfterAck, PendingOf, Purge, RegistrationAck, CapabilityOf, TakenCommand;
    hide Registry.Upserted, Registry.PositionIn, Own, Replays;
    if h.pc.Route? {
      RouteFits(cfg, b, h, admitted);
      hide PcAfterRoute;
    } else if h.pc.SendAck? {
      OwnSent(h.channel.offers, Offer(FromAck, RegistrationAck(cfg, NodeOf(h))));
    } else if h.pc.Replay? && h.pc.rest != [] {
      OwnSent(h.channel.offers, Offer(FromReplay, h.pc.rest[0].msg));
      ReplaysNext(h.snapshot, Replayed(h));
    }
  }

  lemma HandlerKeepsUpdates(cfg: Config, b: Inner, c: nat, h: Handler, admitted: bool)
    requires HandlerReady(b, h) && PcFits(h) && UpdatesFit(h)
    ensures UpdatesFit(HandlerMove(cfg, b, c, h, admitted).1)
  {
    hide ExpiredIds, AfterDrain, AfterAck, PendingOf, Purge, RegistrationAck, CapabilityOf, TakenCommand;
    hide Registry.Upserted, Registry.PositionIn;
    if h.pc.Route? {
      RouteFits(cfg, b, h, admitted);
    } else if h.pc.EmitGone? {
      assert (h.emitted + [NodeDisconnected(NodeOf(h))])[..|h.emitted|] == h.emitted;
    }
    hide PcAfterRoute;
  }

  ghost predicate AllShaped(cfg: Config, s: State) {
    forall c :: 0 <= c < |s.handlers| ==> Shaped(cfg, s.handlers[c])
  }

  lemma ShapedStep(cfg: Config, s: State, a: Action)
    requires Enabled(s, a) && AllShaped(cfg, s)
    ensures AllShaped(cfg, Apply(cfg, s, a))
  {
    hide SenderMove, Replays, Own, Routing.ExtractTaskId;
    var t := Apply(cfg, s, a);
    match a
    case HandlerStep(c, admitted) =>
      HandlerKeepsOffers(cfg, s.inner, c, s.handlers[c], admitted);
      HandlerKeepsUpdates(cfg, s.inner, c, s.handlers[c], admitted);
      hide HandlerMove, PcFits, ReplayFits, OffersFit, UpdatesFit;
    case SenderStep(i) =>
      if s.senders[i].pc.SendLive? {
        LiveSendKeepsShape(cfg, s.handlers[s.senders[i].pc.conn], Offer(FromSender(i), s.senders[i].msg));
      }
      hide Shaped;
    case AlertStep(k) =>
      if s.alerts[k].pc.AlertSend? {
        LiveSendKeepsShape(cfg, s.handlers[s.alerts[k].pc.conn], Offer(FromAlert(k), AlertAck(cfg, s.alerts[k])));
      }
      hide Shaped, AlertAck;
    case Receive(c, msg) =>
      ReceivedKeepsShape(cfg, s.handlers[c], msg);
      hide Received, Shaped;
    case Hangup(c) =>
      HangupKeepsShape(cfg, s.handlers[c]);
      hide Shaped;
    case Accept =>
      FreshIsShaped(cfg);
      hide Shaped;
    case WriterStep(c) =>
      WriterKeepsShape(cfg, s.handlers[c], t.handlers[c].channel);
      hide Shaped;
    case WriterFail(c) =>
      WriterKeepsShape(cfg, s.handlers[c], t.handlers[c].channel);
      hide Shaped;
    case _ =>
      hide Shaped;
  }

  lemma LiveSendKeepsShape(cfg: Config, h: Handler, o: Offer)
    requires Shaped(cfg, h) && o.origin.Live()
    ensures Shaped(cfg, h.(channel := h.channel.Sent(o)))
  {
    OwnSent(h.channel.offers, o);
    hide Own, Replays, RegistrationAck, NoGone;
  }

  lemma HangupKeepsShape(cfg: Config, h: Handler)
    requires Shaped(cfg, h) && h.pc.Reading?
    ensures Shaped(cfg, h.(pc := if h.registered.Some? then LeaveConnections else Closed))
  {
    hide Own, Replays, RegistrationAck, NoGone;
  }

  lemma WriterKeepsShape(cfg: Config, h: Handler, ch: Channel)
    requires Shaped(cfg, h) && ch.offers == h.channel.offers
    ensures Shaped(cfg, h.(channel := ch))
  {
    hide Own, Replays, RegistrationAck, NoGone;
  }

  lemma ReceivedKeepsShape(cfg: Config, h: Handler, msg: SapientMessage)
    requires Shaped(cfg, h) && h.pc.Reading?
    ensures Shaped(cfg, Received(h, msg))
  {
    hide Own, Replays;
  }

  lemma FreshIsShaped(cfg: Config)
    ensures Shaped(cfg, FRESH_HANDLER)
  {
  }

  // ---- queues stay in enqueue order, and snapshots hold nothing expired ----

  ghost predicate Timely(q: Queue, ttl: nat, now: nat) { Ordered(q, ttl) && forall t :: t in q ==> t.enqueuedAt <= now }

  ghost predicate QueuesTimely(cfg: Config, b: Inner) {
    forall n :: n in b.queues ==> Timely(b.queues[n], cfg.ttl, b.now)
  }

  predicate Fresh(q: Queue, at: nat) { forall t :: t in q ==> !Expired(t, at) }

  ghost predicate AllFresh(qs: Queues, at: nat) { forall n :: n in qs ==> Fresh(qs[n], at) }

  lemma PrependTimely(x: QueuedTask, r: Queue, now: nat)
    requires Timely(r, x.ttl, now) && x.enqueuedAt <= now
    requires forall t :: t in r ==> x.enqueuedAt <= t.enqueuedAt
    ensures Timely([x] + r, x.ttl, now)
  {
    var s := [x] + r;
    assert forall k :: 0 < k < |s| ==> s[k] == r[k - 1] && s[k] in r;
  }

  lemma TailTimely(q: Queue, ttl: nat, now: nat)
    requires Timely(q, ttl, now) && q != []
    ensures Timely(q[1..], ttl, now) && q[0].ttl == ttl && q[0].enqueuedAt <= now
    ensures forall t :: t in q[1..] ==> q[0].enqueuedAt <= t.enqueuedAt
  {
  }

  lemma {:induction false} RetainTimely(p: QueuedTask -> bool, q: Queue, ttl: nat, now: nat)
    requires Timely(q, ttl, now)
    ensures Timely(Retain(p, q), ttl, now)
  {
    hide Timely;
    if q != [] {
      TailTimely(q, ttl, now);
      RetainTimely(p, q[1..], ttl, now);
      RetainMembers(p, q[1..]);
      if p(q[0]) { PrependTimely(q[0], Retain(p, q[1..]), now); }
      else { assert Retain(p, q) == Retain(p, q[1..]); }
    }
  }

  lemma SectionsKeepOrder(cfg: Config, b: Inner, node: string, id: string)
    requires QueuesTimely(cfg, b)
    ensures QueuesTimely(cfg, b.(queues := AfterDrain(b.queues, b.now)))
    ensures QueuesTimely(cfg, b.(queues := AfterAck(b.queues, node, id)))
    ensures AllFresh(AfterDrain(b.queues, b.now), b.now)
  {
    forall n | n in b.queues
      ensures Timely(Retain(LiveAt(b.now), b.queues[n]), cfg.ttl, b.now) &&
        Fresh(Retain(LiveAt(b.now), b.queues[n]), b.now)
      ensures Timely(Retain(OtherThan(id), b.queues[n]), cfg.ttl, b.now)
    {
      RetainTimely(LiveAt(b.now), b.queues[n], cfg.ttl, b.now);
      RetainMembers(LiveAt(b.now), b.queues[n]);
      RetainTimely(OtherThan(id), b.queues[n], cfg.ttl, b.now);
    }
    hide Retain, Timely, Fresh;
  }

  lemma PushKeepsOrder(q: Queue, t: QueuedTask, maxDepth: nat)
    requires Timely(q, t.ttl, t.enqueuedAt)
    ensures Timely(Pushed(q, t, maxDepth), t.ttl, t.enqueuedAt)
  {
  }

  lemma EnqueueKeepsOrder(cfg: Config, b: Inner, t: Sender)
    requires QueuesTimely(cfg, b)
    ensures QueuesTimely(cfg, b.(queues := QueuesAfterEnqueue(cfg, b, t)))
  {
    SectionsKeepOrder(cfg, b, "", "");
    var mid := AfterDrain(b.queues, b.now);
    assert Timely([], cfg.ttl, b.now);
    hide Timely, AfterDrain;
    PushKeepsOrder(PendingOf(mid, t.node), QueuedTask(t.msg, t.taskId, b.now, cfg.ttl), cfg.maxDepth);
    hide Pushed;
  }

  ghost predicate SnapshotFits(cfg: Config, b: Inner, h: Handler) {
    Ordered(h.snapshot, cfg.ttl) && Fresh(h.snapshot, h.drainedAt) &&
    (h.pc.PurgeExpired? ==> AllFresh(b.queues, h.drainedAt))
  }

  /** What a handler's step does to the queues and to its snapshot. */
  lemma HandlerQueues(cfg: Config, b: Inner, c: nat, h: Handler, admitted: bool)
    requires HandlerReady(b, h)
    ensures var (b', h') := HandlerMove(cfg, b, c, h, admitted);
      b'.now == b.now &&
      match h.pc
      case DrainQueue(_) =>
        b.queueOwner.None? && b'.queues == AfterDrain(b.queues, b.now) && h'.drainedAt == b.now &&
        (if h'.pc.PurgeExpired? then h'.snapshot == h.snapshot else h'.snapshot == PendingOf(b'.queues, NodeOf(h)))
      case PurgeExpired(_, _) =>
        b'.queues == b.queues && h'.drainedAt == h.drainedAt && h'.snapshot == PendingOf(b.queues, NodeOf(h)) &&
        !h'.pc.PurgeExpired?
      case Dequeue(n, id, _) =>
        b.queueOwner.None? && b'.queues == AfterAck(b.queues, n, id) && h'.drainedAt == h.drainedAt &&
        h'.snapshot == h.snapshot && !h'.pc.PurgeExpired?
      case _ =>
        b'.queues == b.queues && h'.drainedAt == h.drainedAt && h'.snapshot == h.snapshot && !h'.pc.PurgeExpired?
  {
    if h.pc.Route? { RouteFits(cfg, b, h, admitted); }
    hide AfterDrain, AfterAck, PendingOf, ExpiredIds, Purge, RegistrationAck, CapabilityOf, TakenCommand, NodeOf;
    hide Registry.Upserted, Registry.PositionIn, PcAfterRoute;
  }

  lemma HandlerSnapshot(cfg: Config, b: Inner, c: nat, h: Handler, admitted: bool)
    requires HandlerReady(b, h) && QueuesTimely(cfg, b) && SnapshotFits(cfg, b, h) && ReplayFits(h)
    ensures var (b', h') := HandlerMove(cfg, b, c, h, admitted);
      b'.now == b.now && QueuesTimely(cfg, b') && SnapshotFits(cfg, b', h') &&
      (b'.queues == b.queues || b.queueOwner.None?)
  {
    HandlerQueues(cfg, b, c, h, admitted);
    hide HandlerMove, HandlerReady, AfterDrain, AfterAck, PendingOf, NodeOf, Timely, Fresh, AllFresh, Ordered;
    match h.pc
    case DrainQueue(_) =>
      EmptyFits(cfg, b.now);
      SectionsKeepOrder(cfg, b, "", "");
      PendingFits(cfg, AfterDrain(b.queues, b.now), NodeOf(h), b.now, b.now);
    case PurgeExpired(_, _) => PendingFits(cfg, b.queues, NodeOf(h), b.now, h.drainedAt);
    case Dequeue(n, id, _) => SectionsKeepOrder(cfg, b, n, id);
    case _ =>
  }

  lemma PendingFits(cfg: Config, qs: Queues, node: string, now: nat, at: nat)
    ensures (forall n :: n in qs ==> Timely(qs[n], cfg.ttl, now)) ==> Ordered(PendingOf(qs, node), cfg.ttl)
    ensures AllFresh(qs, at) ==> Fresh(PendingOf(qs, node), at)
  {
  }

  ghost predicate SnapshotsFit(cfg: Config, s: State) {
    QueuesTimely(cfg, s.inner) && forall c :: 0 <= c < |s.handlers| ==> SnapshotFits(cfg, s.inner, s.handlers[c])
  }

  /** Nobody touches the queues while a handler purges what its drain reported. */
  lemma OthersFit(cfg: Config, s: State, b: Inner, c: nat)
    requires BridgeLocks.LocksFit(s) && c < |s.handlers| && SnapshotFits(cfg, s.inner, s.handlers[c])
    requires b.queues == s.inner.queues || s.inner.queueOwner.None?
    ensures SnapshotFits(cfg, b, s.handlers[c])
  {
    hide AllFresh, Fresh, Ordered, BridgeLocks.OwnersExist, BridgeLocks.SenderFits;
    assert BridgeLocks.HandlerFits(s.inner, c, s.handlers[c]);
  }

  lemma SnapshotsStep(cfg: Config, s: State, a: Action)
    requires Enabled(s, a) && BridgeLocks.LocksFit(s) && AllShaped(cfg, s) && SnapshotsFit(cfg, s)
    ensures SnapshotsFit(cfg, Apply(cfg, s, a))
  {
    if a.HandlerStep? {
      HandlerSnapshots(cfg, s, a.c, a.admitted);
    } else if a.SenderStep? && !s.senders[a.i].pc.SendLive? {
      SenderSnapshots(cfg, s, a.i);
    } else {
      OtherSnapshots(cfg, s, a);
    }
    hide Apply, SnapshotsFit, AllShaped, BridgeLocks.LocksFit;
  }

  lemma HandlerSnapshots(cfg: Config, s: State, c: nat, admitted: bool)
    requires Enabled(s, HandlerStep(c, admitted)) && BridgeLocks.LocksFit(s)
    requires AllShaped(cfg, s) && SnapshotsFit(cfg, s)
    ensures SnapshotsFit(cfg, Apply(cfg, s, HandlerStep(c, admitted)))
  {
    var t := Apply(cfg, s, HandlerStep(c, admitted));
    assert ReplayFits(s.handlers[c]) by { hide Own, Replays; assert Shaped(cfg, s.handlers[c]); }
    HandlerSnapshot(cfg, s.inner, c, s.handlers[c], admitted);
    hide AllShaped, HandlerMove, HandlerReady, SnapshotFits, QueuesTimely, BridgeLocks.LocksFit;
    forall d | 0 <= d < |s.handlers| && d != c ensures SnapshotFits(cfg, t.inner, s.handlers[d]) {
      OthersFit(cfg, s, t.inner, d);
    }
  }

  lemma SenderSnapshots(cfg: Config, s: State, i: nat)
    requires Enabled(s, SenderStep(i)) && !s.senders[i].pc.SendLive? && BridgeLocks.LocksFit(s)
    requires SnapshotsFit(cfg, s)
    ensures SnapshotsFit(cfg, Apply(cfg, s, SenderStep(i)))
  {
    var t := Apply(cfg, s, SenderStep(i));
    SenderShared(cfg, s.inner, i, s.senders[i]);
    SenderClock(cfg, s.inner, i, s.senders[i]);
    EnqueueKeepsOrder(cfg, s.inner, s.senders[i]);
    hide SenderMove, SnapshotFits, Timely, QueuesAfterEnqueue, BridgeLocks.LocksFit;
    forall d | 0 <= d < |s.handlers| ensures SnapshotFits(cfg, t.inner, s.handlers[d]) {
      OthersFit(cfg, s, t.inner, d);
    }
  }

  lemma OtherSnapshots(cfg: Config, s: State, a: Action)
    requires Enabled(s, a) && SnapshotsFit(cfg, s)
    requires !a.HandlerStep? && (a.SenderStep? ==> s.senders[a.i].pc.SendLive?)
    ensures SnapshotsFit(cfg, Apply(cfg, s, a))
  {
    if a.Elapse? {
      hide Ordered, Fresh, AllFresh;
    } else {
      hide Timely, Ordered, Fresh, AllFresh, Routing.ExtractTaskId;
      EmptyFits(cfg, 0);
    }
  }

  lemma SenderClock(cfg: Config, b: Inner, i: nat, t: Sender)
    requires SenderReady(b, t)
    ensures SenderMove(cfg, b, i, t).0.now == b.now
  {
    hide LostByEnqueue, QueuesAfterEnqueue, Purge;
  }

  lemma EmptyFits(cfg: Config, at: nat)
    ensures Ordered([], cfg.ttl) && Fresh([], at)
  {
  }

  // ---- the invariant over runs ----

  ghost predicate Inv(cfg: Config, s: State) { BridgeLocks.LocksFit(s) && AllShaped(cfg, s) && SnapshotsFit(cfg, s) }

  lemma {:induction false} InvHolds(cfg: Config, s: State, actions: seq<Action>, t: State)
    requires Inv(cfg, s) && Run(cfg, s, actions, t)
    ensures Inv(cfg, t)
    decreases |actions|
  {
    if actions != [] {
      hide Apply, Enabled, BridgeLocks.LocksFit, AllShaped, SnapshotsFit;
      BridgeLocks.LocksStep(cfg, s, actions[0]);
      ShapedStep(cfg, s, actions[0]);
      SnapshotsStep(cfg, s, actions[0]);
      InvHolds(cfg, Apply(cfg, s, actions[0]), actions[1..], t);
    }
  }

  /** The life of a connection. It has queued nothing of its own before its RegistrationAck; from then on it
      has queued exactly that one acknowledgement and, after it, a prefix of its snapshot - the whole of it
      once it reads again. The snapshot is in enqueue order and nothing in it had outlived its TTL at the
      drain. Its updates hold one NodeDisconnected, the last, if it is closed and had registered, and none
      otherwise. */
  lemma {:induction false} TraceShape(cfg: Config, actions: seq<Action>, s: State, c: nat)
    requires Run(cfg, START, actions, s) && c < |s.handlers|
    ensures var h := s.handlers[c];
      0 <= Replayed(h) <= |h.snapshot| &&
      Own(h.channel.offers) == (
        if AckPending(h) then []
        else [Offer(FromAck, RegistrationAck(cfg, h.registered.value))] + Replays(h.snapshot[..Replayed(h)])) &&
      (forall j, k :: 0 <= j < k < |h.snapshot| ==> h.snapshot[j].enqueuedAt <= h.snapshot[k].enqueuedAt) &&
      (forall k :: 0 <= k < |h.snapshot| ==> h.drainedAt - h.snapshot[k].enqueuedAt <= cfg.ttl) &&
      (h.pc.Closed? && h.registered.Some? ==>
        h.emitted != [] && h.emitted[|h.emitted| - 1] == NodeDisconnected(h.registered.value) &&
        NoGone(h.emitted[..|h.emitted| - 1])) &&
      (!(h.pc.Closed? && h.registered.Some?) ==> NoGone(h.emitted))
  {
    StartInv(cfg);
    InvHolds(cfg, START, actions, s);
    var h := s.handlers[c];
    assert Shaped(cfg, h) && SnapshotFits(cfg, s.inner, h);
    assert forall k :: 0 <= k < |h.snapshot| ==> h.snapshot[k] in h.snapshot;
    hide Inv, Run, Own, Replays;
  }

  lemma StartInv(cfg: Config)
    ensures Inv(cfg, START)
  {
  }

  /** The acknowledgement need not come first on the wire: once the sender is published, a `send_task` that
      finds it can queue its task while the handler still waits to queue the RegistrationAck. */
  lemma LiveTaskOvertakesAck(cfg: Config, s: State, i: nat, c: nat)
    returns (t: State)
    requires i < |s.senders| && s.senders[i].pc.LookUp? && s.inner.connectionsOwner.None?
    requires s.senders[i].node in s.inner.connections && s.inner.connections[s.senders[i].node] == c
    requires c < |s.handlers| && s.handlers[c].pc.SendAck? && s.handlers[c].channel.CanSend()
    ensures Run(cfg, s, [SenderStep(i), SenderStep(i)], t) && |t.handlers| == |s.handlers|
    ensures t.handlers[c].pc == s.handlers[c].pc
    ensures t.handlers[c].channel.offers == s.handlers[c].channel.offers + [Offer(FromSender(i), s.senders[i].msg)]
  {
    var mid := Apply(cfg, s, SenderStep(i));
    assert mid.senders[i].pc == SendLive(c) && mid.handlers == s.handlers;
    t := Apply(cfg, mid, SenderStep(i));
    BridgeAcks.RunTwo(cfg, s, SenderStep(i), SenderStep(i));
    hide Run;
  }

  // ---- what the application receives ----

  function IsBit(u: SapientUpdate): SapientUpdate -> nat { (v: SapientUpdate) => if v == u then 1 else 0 }

  function Count(us: seq<SapientUpdate>, u: SapientUpdate): nat { Sum(IsBit(u), us) }

  function EmittedCount(u: SapientUpdate): Handler -> nat { (h: Handler) => Count(h.emitted, u) }

  /** Every update on the channel is one handler's, as often as that handler emitted it. */
  ghost predicate Accounted(s: State, u: SapientUpdate) {
    Count(s.inner.updates, u) == Sum(EmittedCount(u), s.handlers)
  }

  lemma SenderKeepsUpdates(cfg: Config, b: Inner, i: nat, t: Sender)
    requires SenderReady(b, t)
    ensures SenderMove(cfg, b, i, t).0.updates == b.updates
  {
    hide LostByEnqueue, QueuesAfterEnqueue, Purge;
  }

  lemma HandlerEmits(cfg: Config, b: Inner, c: nat, h: Handler, admitted: bool)
    requires HandlerReady(b, h)
    ensures var (b', h') := HandlerMove(cfg, b, c, h, admitted);
      match h.pc
      case Emit(u) => b'.updates == b.updates + [u] && h'.emitted == h.emitted + [u]
      case EmitGone =>
        b'.updates == b.updates + [NodeDisconnected(NodeOf(h))] &&
          h'.emitted == h.emitted + [NodeDisconnected(NodeOf(h))]
      case _ => b'.updates == b.updates && h'.emitted == h.emitted
  {
    hide AfterDrain, AfterAck, PendingOf, ExpiredIds, Purge, RegistrationAck, CapabilityOf, TakenCommand, NodeOf;
    hide Registry.Upserted, Registry.PositionIn, PcAfterRoute;
  }

  lemma CountPush(us: seq<SapientUpdate>, v: SapientUpdate, u: SapientUpdate)
    ensures Count(us + [v], u) == Count(us, u) + (if v == u then 1 else 0)
  {
    SumPush(IsBit(u), us, v);
    hide Sum;
  }

  /** One handler emits `v`. */
  lemma EmitAccounts(s: State, t: State, c: nat, h: Handler, v: SapientUpdate, u: SapientUpdate)
    requires Accounted(s, u) && c < |s.handlers| && t.handlers == s.handlers[c := h]
    requires t.inner.updates == s.inner.updates + [v] && h.emitted == s.handlers[c].emitted + [v]
    ensures Accounted(t, u)
  {
    SumUpdate(EmittedCount(u), s.handlers, c, h);
    CountPush(s.inner.updates, v, u);
    CountPush(s.handlers[c].emitted, v, u);
    hide Sum, Count;
  }

  /** One handler changes, but emits nothing. */
  lemma QuietAccounts(s: State, t: State, c: nat, h: Handler, u: SapientUpdate)
    requires Accounted(s, u) && c < |s.handlers| && t.handlers == s.handlers[c := h]
    requires t.inner.updates == s.inner.updates && h.emitted == s.handlers[c].emitted
    ensures Accounted(t, u)
  {
    SumUpdate(EmittedCount(u), s.handlers, c, h);
    hide Sum, Count;
  }

  lemma HandlerAccounts(cfg: Config, s: State, c: nat, admitted: bool, u: SapientUpdate)
    requires c < |s.handlers| && HandlerReady(s.inner, s.handlers[c]) && Accounted(s, u)
    ensures Accounted(HandlerApply(cfg, s, c, admitted), u)
  {
    var h, t := s.handlers[c], HandlerApply(cfg, s, c, admitted);
    HandlerEmits(cfg, s.inner, c, h, admitted);
    hide HandlerMove, HandlerReady, Accounted, NodeOf;
    if h.pc.Emit? {
      EmitAccounts(s, t, c, t.handlers[c], h.pc.update, u);
    } else if h.pc.EmitGone? {
      EmitAccounts(s, t, c, t.handlers[c], NodeDisconnected(NodeOf(h)), u);
    } else {
      QuietAccounts(s, t, c, t.handlers[c], u);
    }
  }

  lemma AcceptAccounts(s: State, t: State, h: Handler, u: SapientUpdate)
    requires Accounted(s, u) && t.handlers == s.handlers + [h] && h.emitted == [] && t.inner == s.inner
    ensures Accounted(t, u)
  {
    SumPush(EmittedCount(u), s.handlers, h);
    assert Count([], u) == 0;
    hide Sum, Count;
  }

  lemma SenderAccounts(cfg: Config, s: State, i: nat, u: SapientUpdate)
    requires Enabled(s, SenderStep(i)) && Accounted(s, u)
    ensures Accounted(Apply(cfg, s, SenderStep(i)), u)
  {
    var t := Apply(cfg, s, SenderStep(i));
    hide Sum, Count;
    if s.senders[i].pc.SendLive? {
      QuietAccounts(s, t, s.senders[i].pc.conn, t.handlers[s.senders[i].pc.conn], u);
    } else {
      SenderKeepsUpdates(cfg, s.inner, i, s.senders[i]);
      hide SenderMove;
    }
  }

  lemma AlertAccounts(cfg: Config, s: State, k: nat, u: SapientUpdate)
    requires Enabled(s, AlertStep(k)) && Accounted(s, u)
    ensures Accounted(Apply(cfg, s, AlertStep(k)), u)
  {
    var t := Apply(cfg, s, AlertStep(k));
    hide Sum, Count, AlertAck;
    if s.alerts[k].pc.AlertSend? {
      QuietAccounts(s, t, s.alerts[k].pc.conn, t.handlers[s.alerts[k].pc.conn], u);
    }
  }

  lemma ConnectionAccounts(cfg: Config, s: State, a: Action, c: nat, u: SapientUpdate)
    requires Enabled(s, a) && Accounted(s, u)
    requires a == Hangup(c) || (a.Receive? && a.c == c) || a == WriterStep(c) || a == WriterFail(c)
    ensures Accounted(Apply(cfg, s, a), u)
  {
    var t := Apply(cfg, s, a);
    hide Accounted;
    QuietAccounts(s, t, c, t.handlers[c], u);
  }

  lemma AccountedStep(cfg: Config, s: State, a: Action, u: SapientUpdate)
    requires Enabled(s, a) && Accounted(s, u)
    ensures Accounted(Apply(cfg, s, a), u)
  {
    hide Routing.ExtractTaskId, Sum, Count;
    if a.HandlerStep? {
      HandlerAccounts(cfg, s, a.c, a.admitted, u);
      hide HandlerApply, Accounted;
    } else if a.SenderStep? {
      SenderAccounts(cfg, s, a.i, u);
      hide Apply, Enabled, Accounted;
    } else if a.AlertStep? {
      AlertAccounts(cfg, s, a.k, u);
      hide Apply, Enabled, Accounted;
    } else if a.Receive? || a.Hangup? || a.WriterStep? || a.WriterFail? {
      ConnectionAccounts(cfg, s, a, a.c, u);
      hide Apply, Enabled, Accounted;
    } else if a.Accept? {
      AcceptAccounts(s, Apply(cfg, s, a), FRESH_HANDLER, u);
      hide Accounted;
    }
  }

  lemma {:induction false} AccountedHolds(cfg: Config, s: State, actions: seq<Action>, t: State, u: SapientUpdate)
    requires Accounted(s, u) && Run(cfg, s, actions, t)
    ensures Accounted(t, u)
    decreases |actions|
  {
    if actions != [] {
      hide Apply, Enabled, Accounted;
      AccountedStep(cfg, s, actions[0], u);
      AccountedHolds(cfg, Apply(cfg, s, actions[0]), actions[1..], t, u);
    }
  }

  function ClosedBit(n: string): Handler -> nat {
    (h: Handler) => if h.pc.Closed? && h.registered == Some(n) then 1 else 0
  }

  lemma NoneCounted(us: seq<SapientUpdate>, n: string)
    requires NoGone(us)
    ensures Count(us, NodeDisconnected(n)) == 0
  {
    SumZero(IsBit(NodeDisconnected(n)), us);
  }

  lemma GoneOfHandler(h: Handler, n: string)
    requires UpdatesFit(h)
    ensures Count(h.emitted, NodeDisconnected(n)) == ClosedBit(n)(h)
  {
    hide Count;
    if h.pc.Closed? && h.registered.Some? {
      var init, last := h.emitted[..|h.emitted| - 1], h.emitted[|h.emitted| - 1];
      assert h.emitted == init + [last];
      NoneCounted(init, n);
      CountPush(init, last, NodeDisconnected(n));
    } else {
      NoneCounted(h.emitted, n);
    }
  }

  lemma {:induction false} GoneOfAll(hs: seq<Handler>, n: string)
    requires forall h :: h in hs ==> UpdatesFit(h)
    ensures Sum(EmittedCount(NodeDisconnected(n)), hs) == Sum(ClosedBit(n), hs)
  {
    hide UpdatesFit, Count;
    if hs != [] {
      GoneOfHandler(hs[0], n);
      GoneOfAll(hs[1..], n);
    }
  }

  /** The application hears every update exactly as often as the handlers emitted it, and that a node has
      gone exactly once for each closed connection that registered as that node. */
  lemma {:induction false} OneGoneEach(cfg: Config, actions: seq<Action>, s: State, u: SapientUpdate, n: string)
    requires Run(cfg, START, actions, s)
    ensures Count(s.inner.updates, u) == Sum(EmittedCount(u), s.handlers)
    ensures Count(s.inner.updates, NodeDisconnected(n)) == Sum(ClosedBit(n), s.handlers)
  {
    StartInv(cfg);
    InvHolds(cfg, START, actions, s);
    StartAccounted(u);
    StartAccounted(NodeDisconnected(n));
    AccountedHolds(cfg, START, actions, s, u);
    AccountedHolds(cfg, START, actions, s, NodeDisconnected(n));
    hide Run, Sum;
    forall h | h in s.handlers ensures UpdatesFit(h) {
      var c :| 0 <= c < |s.handlers| && s.handlers[c] == h;
      hide OffersFit, ReplayFits, PcFits, SnapshotsFit, BridgeLocks.LocksFit, UpdatesFit;
      assert Shaped(cfg, s.handlers[c]);
    }
    GoneOfAll(s.handlers, n);
  }

  lemma StartAccounted(u: SapientUpdate)
    ensures Accounted(START, u)
  {
  }
}
