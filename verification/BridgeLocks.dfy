// The bridge cannot deadlock: whoever holds a lock can always be helped to let go of it, and all the work
// under way comes to an end.

module BridgeLocks {
  import opened Base
  import opened Sapient
  import opened TaskQueues
  import opened Bridge

  /** Sender `i` holds a lock across steps exactly when its program counter says so. */
  ghost predicate SenderFits(b: Inner, i: nat, t: Sender, handlers: nat) {
    (t.pc.PurgeLost? <==> b.queueOwner == Some(SenderThread(i))) &&
    (t.pc.SendLive? <==> b.connectionsOwner == Some(SenderThread(i))) &&
    (t.pc.SendLive? ==> t.pc.conn < handlers)
  }

  ghost predicate HandlerFits(b: Inner, c: nat, h: Handler) {
    h.pc.PurgeExpired? <==> b.queueOwner == Some(HandlerThread(c))
  }

  ghost predicate AlertFits(b: Inner, k: nat, t: AlertCall, handlers: nat) {
    (t.pc.AlertSend? <==> b.connectionsOwner == Some(AlertThread(k))) && (t.pc.AlertSend? ==> t.pc.conn < handlers)
  }

  ghost predicate OwnersExist(b: Inner, senders: nat, handlers: nat, alerts: nat) {
    (b.queueOwner.Some? ==> match b.queueOwner.value
       case SenderThread(i) => i < senders
       case HandlerThread(c) => c < handlers
       case AlertThread(_) => false) &&
    (b.connectionsOwner.Some? ==> match b.connectionsOwner.value
       case SenderThread(i) => i < senders
       case HandlerThread(_) => false
       case AlertThread(k) => k < alerts) &&
    (forall n :: n in b.connections ==> b.connections[n] < handlers)
  }

  /** Who holds task_queue or connections across steps is exactly who its program counter says. */
  ghost predicate LocksFit(s: State) {
    OwnersExist(s.inner, |s.senders|, |s.handlers|, |s.alerts|) &&
    (forall i :: 0 <= i < |s.senders| ==> SenderFits(s.inner, i, s.senders[i], |s.handlers|)) &&
    (forall c :: 0 <= c < |s.handlers| ==> HandlerFits(s.inner, c, s.handlers[c])) &&
    (forall k :: 0 <= k < |s.alerts| ==> AlertFits(s.inner, k, s.alerts[k], |s.handlers|))
  }

  /** A sender's step keeps every other thread's locks and its own in order. */
  lemma SenderMoveLocks(cfg: Config, b: Inner, i: nat, t: Sender, senders: nat, handlers: nat, alerts: nat)
    requires SenderReady(b, t) && SenderFits(b, i, t, handlers) && OwnersExist(b, senders, handlers, alerts) &&
      i < senders
    ensures var (b', pc) := SenderMove(cfg, b, i, t);
      SenderFits(b', i, t.(pc := pc), handlers) && OwnersExist(b', senders, handlers, alerts) &&
      (forall j, u :: j != i && SenderFits(b, j, u, handlers) ==> SenderFits(b', j, u, handlers)) &&
      (forall c, h :: HandlerFits(b, c, h) ==> HandlerFits(b', c, h)) &&
      (forall k, u :: AlertFits(b, k, u, handlers) ==> AlertFits(b', k, u, handlers))
  {
    hide LostByEnqueue, QueuesAfterEnqueue, Purge;
  }

  /** How a handler's step moves the locks. */
  lemma HandlerLockEffect(cfg: Config, b: Inner, c: nat, h: Handler, admitted: bool)
    requires HandlerReady(b, h)
    ensures var (b', h') := HandlerMove(cfg, b, c, h, admitted);
      b'.connectionsOwner == b.connectionsOwner &&
      (forall n :: n in b'.connections ==>
        b'.connections[n] == c || (n in b.connections && b'.connections[n] == b.connections[n])) &&
      if h'.pc.PurgeExpired? then b.queueOwner.None? && b'.queueOwner == Some(HandlerThread(c))
      else b'.queueOwner == if h.pc.PurgeExpired? then None else b.queueOwner
  {
    hide ExpiredIds, AfterDrain, AfterAck, Purge, Routing.RouteMessage, Registry.Upserted, Registry.PositionIn;
    hide PendingOf, RegistrationAck, CapabilityOf, TakenCommand, NodeOf;
  }

  lemma HandlerMoveLocks(cfg: Config, b: Inner, c: nat, h: Handler, admitted: bool, senders: nat, handlers: nat,
      alerts: nat)
    requires HandlerReady(b, h) && HandlerFits(b, c, h) && OwnersExist(b, senders, handlers, alerts) && c < handlers
    ensures var (b', h') := HandlerMove(cfg, b, c, h, admitted);
      HandlerFits(b', c, h') && OwnersExist(b', senders, handlers, alerts) &&
      (forall j, u :: SenderFits(b, j, u, handlers) ==> SenderFits(b', j, u, handlers)) &&
      (forall d, g :: d != c && HandlerFits(b, d, g) ==> HandlerFits(b', d, g)) &&
      (forall k, u :: AlertFits(b, k, u, handlers) ==> AlertFits(b', k, u, handlers))
  {
    HandlerLockEffect(cfg, b, c, h, admitted);
    hide HandlerMove, HandlerReady;
  }

  lemma LocksStep(cfg: Config, s: State, a: Action)
    requires LocksFit(s) && Enabled(s, a)
    ensures LocksFit(Apply(cfg, s, a))
  {
    if a.SenderStep? {
      hide LocksFit;
      SenderLocks(cfg, s, a.i);
    } else if a.HandlerStep? {
      HandlerMoveLocks(cfg, s.inner, a.c, s.handlers[a.c], a.admitted, |s.senders|, |s.handlers|, |s.alerts|);
      hide HandlerMove, HandlerReady, SenderFits, HandlerFits, AlertFits, OwnersExist;
    } else if a.AlertStep? {
      hide LocksFit;
      AlertLocks(cfg, s, a.k);
    }
  }

  lemma SenderLocks(cfg: Config, s: State, i: nat)
    requires LocksFit(s) && SenderEnabled(s, i)
    ensures LocksFit(SenderApply(cfg, s, i))
  {
    if !s.senders[i].pc.SendLive? {
      SenderMoveLocks(cfg, s.inner, i, s.senders[i], |s.senders|, |s.handlers|, |s.alerts|);
      hide SenderMove, SenderReady, SenderFits, HandlerFits, AlertFits, OwnersExist;
    }
  }

  lemma AlertLocks(cfg: Config, s: State, k: nat)
    requires LocksFit(s) && AlertEnabled(s, k)
    ensures LocksFit(AlertApply(cfg, s, k))
  {
    hide AlertAck;
  }

  // ---- progress ----

  /** Steps of the bridge's own threads and writers, and the application taking an update. */
  predicate Internal(a: Action) { a.SenderStep? || a.AlertStep? || a.HandlerStep? || a.WriterStep? || a.Consume? }

  predicate SenderBusy(s: State, i: nat) { i < |s.senders| && !s.senders[i].pc.SendDone? }

  predicate HandlerBusy(s: State, c: nat) {
    c < |s.handlers| && !s.handlers[c].pc.Reading? && !s.handlers[c].pc.Closed?
  }

  predicate AlertBusy(s: State, k: nat) { k < |s.alerts| && !s.alerts[k].pc.AlertDone? }

  /** Whoever holds task_queue waits only for task_commands, which is free. */
  lemma QueueHolderMoves(s: State) returns (a: Action)
    requires LocksFit(s) && s.inner.queueOwner.Some?
    ensures Internal(a) && Enabled(s, a)
  {
    match s.inner.queueOwner.value
    case SenderThread(i) => a := SenderStep(i);
    case HandlerThread(c) => a := HandlerStep(c, true);
  }

  /** Whoever holds connections waits only for room in one write channel, which its writer makes. */
  lemma ConnectionsHolderMoves(s: State) returns (a: Action)
    requires LocksFit(s) && s.inner.connectionsOwner.Some?
    ensures Internal(a) && Enabled(s, a)
  {
    match s.inner.connectionsOwner.value
    case SenderThread(i) => a := ChannelMoves(s, s.senders[i].pc.conn, SenderStep(i));
    case AlertThread(k) => a := ChannelMoves(s, s.alerts[k].pc.conn, AlertStep(k));
  }

  /** A thread that only waits for room in channel `c` can go, or the writer of `c` can. */
  lemma ChannelMoves(s: State, c: nat, a: Action) returns (b: Action)
    requires c < |s.handlers| && Internal(a)
    requires s.handlers[c].channel.CanSend() ==> Enabled(s, a)
    ensures Internal(b) && Enabled(s, b)
  {
    b := if s.handlers[c].channel.CanSend() then a else WriterStep(c);
  }

  predicate Busy(s: State, busy: Thread) {
    match busy
    case SenderThread(i) => SenderBusy(s, i)
    case HandlerThread(c) => HandlerBusy(s, c)
    case AlertThread(k) => AlertBusy(s, k)
  }

  /** No deadlock: as long as any `send_task`, any `send_alert_ack` or any handler is in the middle of its work,
      some thread of the bridge, some writer or the application can take a step. */
  lemma NoDeadlock(s: State, busy: Thread) returns (a: Action)
    requires LocksFit(s)
    requires Busy(s, busy)
    ensures Internal(a) && Enabled(s, a)
  {
    hide LocksFit;
    if s.inner.queueOwner.Some? {
      a := QueueHolderMoves(s);
    } else if s.inner.connectionsOwner.Some? {
      a := ConnectionsHolderMoves(s);
    } else if s.inner.unread > 0 {
      a := Consume;
    } else {
      match busy
      case SenderThread(i) =>
        if s.senders[i].pc.SendLive? { HolderIsOwner(s, i); } else { a := SenderStep(i); }
      case HandlerThread(c) =>
        a := ChannelMoves(s, c, HandlerStep(c, true));
      case AlertThread(k) =>
        if s.alerts[k].pc.AlertSend? { HolderIsOwner(s, k); } else { a := AlertStep(k); }
    }
  }

  /** A call in the middle of its send is the one that holds connections. */
  lemma HolderIsOwner(s: State, i: nat)
    requires LocksFit(s)
    ensures i < |s.senders| && s.senders[i].pc.SendLive? ==> s.inner.connectionsOwner.Some?
    ensures i < |s.alerts| && s.alerts[i].pc.AlertSend? ==> s.inner.connectionsOwner.Some?
  {
  }

  // ---- termination ----

  function Depth(cfg: Config): nat { Max(1, cfg.maxDepth) }

  ghost predicate QueuesBounded(cfg: Config, qs: Queues) {
    forall n :: n in qs ==> |qs[n]| <= Depth(cfg)
  }

  /** Every lock section leaves each queue as it was, or shortened, or pushed within the bound. */
  lemma BoundedAfter(cfg: Config, qs: Queues, now: nat, node: string, id: string, t: QueuedTask)
    requires QueuesBounded(cfg, qs)
    ensures QueuesBounded(cfg, AfterDrain(qs, now))
    ensures QueuesBounded(cfg, AfterAck(qs, node, id))
    ensures QueuesBounded(cfg, AfterEnqueue(AfterDrain(qs, now), node, t, cfg.maxDepth))
    ensures |PendingOf(AfterDrain(qs, now), node)| <= Depth(cfg) && |PendingOf(qs, node)| <= Depth(cfg)
  {
    hide Retain;
  }

  lemma HandlerMoveBounded(cfg: Config, b: Inner, c: nat, h: Handler, admitted: bool)
    requires QueuesBounded(cfg, b.queues) && HandlerReady(b, h)
    ensures QueuesBounded(cfg, HandlerMove(cfg, b, c, h, admitted).0.queues)
  {
    hide AfterDrain, AfterAck, QueuesBounded, ExpiredIds, Purge, Routing.RouteMessage;
    hide PendingOf, RegistrationAck, CapabilityOf, TakenCommand, NodeOf, Registry.Upserted, Registry.PositionIn;
    var t := QueuedTask(RegistrationAck(cfg, ""), "", 0, 0);
    match h.pc
    case DrainQueue(_) => BoundedAfter(cfg, b.queues, b.now, "", "", t);
    case Dequeue(n, id, _) => BoundedAfter(cfg, b.queues, b.now, n, id, t);
    case _ =>
  }

  lemma BoundedStep(cfg: Config, s: State, a: Action)
    requires QueuesBounded(cfg, s.inner.queues) && Enabled(s, a)
    ensures QueuesBounded(cfg, Apply(cfg, s, a).inner.queues)
  {
    hide AfterDrain, AfterEnqueue, QueuesBounded, LostByEnqueue, Purge, HandlerMove, Routing.ExtractTaskId;
    match a
    case SenderStep(i) =>
      var b, t := s.inner, s.senders[i];
      BoundedAfter(cfg, b.queues, b.now, t.node, "", QueuedTask(t.msg, t.taskId, b.now, cfg.ttl));
    case HandlerStep(c, admitted) => HandlerMoveBounded(cfg, s.inner, c, s.handlers[c], admitted);
    case _ =>
  }

  function SenderWork(pc: SenderPc): nat {
    match pc
    case InsertCommand => 6
    case EnqueueTask => 5
    case PurgeLost(_) => 4
    case LookUp => 3
    case SendLive(_) => 2
    case SendDone => 0
  }

  function HandlerWork(d: nat, pc: HandlerPc): nat {
    match pc
    case Publish(_) => 11 + 2 * d
    case SendAck(_) => 10 + 2 * d
    case DrainQueue(_) => 8 + 2 * d
    case PurgeExpired(_, _) => 7 + 2 * d
    case Replay(_, rest) => 6 + 2 * |rest|
    case Route(_) => 5
    case UpsertNode(_, _) => 3
    case Dequeue(_, _, _) => 4
    case TakeCommand(_, _, _) => 3
    case Emit(_) => 2
    case LeaveConnections => 4
    case LeaveRegistry => 3
    case EmitGone => 2
    case _ => 0
  }

  function AlertWork(pc: AlertPc): nat {
    match pc
    case AlertLookUp => 3
    case AlertSend(_) => 2
    case AlertDone(_) => 0
  }

  function WorkOfAlert(): AlertCall -> nat { (t: AlertCall) => AlertWork(t.pc) }

  function WorkOfSender(): Sender -> nat { (t: Sender) => SenderWork(t.pc) }

  function WorkOfHandler(d: nat): Handler -> nat { (h: Handler) => HandlerWork(d, h.pc) + h.channel.buffered }

  /** Steps the work under way can still take: what each thread has left to do, and what is buffered. */
  function Work(cfg: Config, s: State): nat {
    Sum(WorkOfSender(), s.senders) + Sum(WorkOfHandler(Depth(cfg)), s.handlers) + Sum(WorkOfAlert(), s.alerts)
      + s.inner.unread
  }

  lemma SenderMoveWorks(cfg: Config, b: Inner, i: nat, t: Sender)
    requires SenderReady(b, t)
    ensures SenderWork(SenderMove(cfg, b, i, t).1) < SenderWork(t.pc)
    ensures SenderMove(cfg, b, i, t).0.unread == b.unread
  {
    hide LostByEnqueue, QueuesAfterEnqueue, Purge;
  }

  lemma HandlerMoveWorks(cfg: Config, b: Inner, c: nat, h: Handler, admitted: bool)
    requires QueuesBounded(cfg, b.queues) && HandlerReady(b, h)
    ensures var (b', h') := HandlerMove(cfg, b, c, h, admitted);
      HandlerWork(Depth(cfg), h'.pc) + h'.channel.buffered + b'.unread
        < HandlerWork(Depth(cfg), h.pc) + h.channel.buffered + b.unread
  {
    hide ExpiredIds, AfterAck, Purge, PcAfterRoute, Retain, Routing.RouteMessage, Registry.Upserted;
    hide RegistrationAck, CapabilityOf, TakenCommand, NodeOf;
    BoundedAfter(cfg, b.queues, b.now, NodeOf(h), "", QueuedTask(RegistrationAck(cfg, ""), "", 0, 0));
    hide AfterDrain, QueuesBounded, PendingOf;
    if h.pc.Route? {
      RouteWorks(cfg.geodesy, h.pc.msg, Registry.PositionIn(b.registry, h.pc.msg.Node()), admitted, Depth(cfg));
    }
  }

  lemma RouteWorks(g: Transforms.Geodesy, msg: SapientMessage, sensor: Option<Position>, admitted: bool, d: nat)
    ensures HandlerWork(d, PcAfterRoute(Routing.RouteMessage(g, msg, sensor, admitted))) <= 4
  {
    hide Routing.RouteMessage;
  }

  lemma WorkShrinks(cfg: Config, s: State, a: Action)
    requires LocksFit(s) && QueuesBounded(cfg, s.inner.queues) && Internal(a) && Enabled(s, a)
    ensures Work(cfg, Apply(cfg, s, a)) < Work(cfg, s)
  {
    hide Sum, LocksFit, QueuesBounded;
    var t := Apply(cfg, s, a);
    match a
    case SenderStep(i) =>
      SumUpdate(WorkOfSender(), s.senders, i, t.senders[i]);
      if s.senders[i].pc.SendLive? {
        var c := s.senders[i].pc.conn;
        SumUpdate(WorkOfHandler(Depth(cfg)), s.handlers, c, t.handlers[c]);
      } else {
        SenderMoveWorks(cfg, s.inner, i, s.senders[i]);
        hide SenderMove;
      }
    case HandlerStep(c, admitted) =>
      HandlerMoveWorks(cfg, s.inner, c, s.handlers[c], admitted);
      hide HandlerMove;
      SumUpdate(WorkOfHandler(Depth(cfg)), s.handlers, c, t.handlers[c]);
    case AlertStep(k) =>
      SumUpdate(WorkOfAlert(), s.alerts, k, t.alerts[k]);
      if s.alerts[k].pc.AlertSend? {
        var c := s.alerts[k].pc.conn;
        SumUpdate(WorkOfHandler(Depth(cfg)), s.handlers, c, t.handlers[c]);
      }
    case WriterStep(c) =>
      SumUpdate(WorkOfHandler(Depth(cfg)), s.handlers, c, t.handlers[c]);
    case Consume =>
  }

  ghost predicate Inv(cfg: Config, s: State) { LocksFit(s) && QueuesBounded(cfg, s.inner.queues) }

  lemma {:induction false} InvHolds(cfg: Config, s: State, actions: seq<Action>, t: State)
    requires Inv(cfg, s) && Run(cfg, s, actions, t)
    ensures Inv(cfg, t)
    decreases |actions|
  {
    if actions != [] {
      LocksStep(cfg, s, actions[0]);
      BoundedStep(cfg, s, actions[0]);
      hide LocksFit, QueuesBounded, Apply, Enabled;
      InvHolds(cfg, Apply(cfg, s, actions[0]), actions[1..], t);
    }
  }

  /** The work under way always comes to an end: from any reachable state, a run of internal steps alone is
      no longer than the work left. */
  lemma {:induction false} WorkEnds(cfg: Config, s: State, actions: seq<Action>, t: State)
    requires Inv(cfg, s) && Run(cfg, s, actions, t) && forall a :: a in actions ==> Internal(a)
    ensures |actions| + Work(cfg, t) <= Work(cfg, s)
    decreases |actions|
  {
    if actions != [] {
      var a := actions[0];
      WorkShrinks(cfg, s, a);
      LocksStep(cfg, s, a);
      BoundedStep(cfg, s, a);
      hide LocksFit, QueuesBounded, Apply, Enabled, Work;
      WorkEnds(cfg, Apply(cfg, s, a), actions[1..], t);
    }
  }

  /** Left alone, the bridge finishes: after any run, any further internal steps are bounded in number, and
      once none is possible every `send_task` and `send_alert_ack` has returned and every handler is reading or
      closed. */
  lemma {:induction false} BridgeFinishes(cfg: Config, before: seq<Action>, s: State, after: seq<Action>, t: State)
    requires Run(cfg, START, before, s)
    requires Run(cfg, s, after, t) && forall a :: a in after ==> Internal(a)
    ensures |after| <= Work(cfg, s)
    ensures (forall a :: Internal(a) ==> !Enabled(t, a)) ==>
      (forall i :: 0 <= i < |t.senders| ==> t.senders[i].pc.SendDone?) &&
      (forall c :: 0 <= c < |t.handlers| ==> t.handlers[c].pc.Reading? || t.handlers[c].pc.Closed?) &&
      (forall k :: 0 <= k < |t.alerts| ==> t.alerts[k].pc.AlertDone?)
  {
    InvHolds(cfg, START, before, s);
    WorkEnds(cfg, s, after, t);
    InvHolds(cfg, s, after, t);
    hide Enabled, LocksFit, QueuesBounded, Work, Run;
    if forall a :: Internal(a) ==> !Enabled(t, a) {
      forall i | 0 <= i < |t.senders| ensures t.senders[i].pc.SendDone? {
        if SenderBusy(t, i) { var a := NoDeadlock(t, SenderThread(i)); }
      }
      forall c | 0 <= c < |t.handlers| ensures t.handlers[c].pc.Reading? || t.handlers[c].pc.Closed? {
        if HandlerBusy(t, c) { var a := NoDeadlock(t, HandlerThread(c)); }
      }
      forall k | 0 <= k < |t.alerts| ensures t.alerts[k].pc.AlertDone? {
        if AlertBusy(t, k) { var a := NoDeadlock(t, AlertThread(k)); }
      }
    }
  }
}
