// The correlation from task ids to the commands that produced them: it does not leak, and each command is
// delivered at most once.

module BridgeCommands {
  import opened Base
  import opened TaskQueues
  import opened Bridge
  import BridgeLocks
  import opened BridgeTasks
  import Routing

  // ---- no leak ----

  predicate QueuedSomewhere(qs: Queues, id: string) { exists n :: n in qs && Queued(qs, n, id) }

  /** Ids a sender answers for: inserted but not enqueued yet, or lost and about to be purged. */
  function SenderHeld(pc: SenderPc, taskId: string): set<string> {
    match pc
    case EnqueueTask => {taskId}
    case PurgeLost(ids) => ids
    case _ => {}
  }

  /** Ids a handler answers for: dequeued and about to be looked up, or expired and about to be purged. */
  function HandlerHeld(pc: HandlerPc): set<string> {
    match pc
    case TakeCommand(_, id, _) => {id}
    case PurgeExpired(_, ids) => ids
    case _ => {}
  }

  function InFlight(s: State): set<string> {
    (set i, id | 0 <= i < |s.senders| && id in SenderHeld(s.senders[i].pc, s.senders[i].taskId) :: id) +
    (set c, id | 0 <= c < |s.handlers| && id in HandlerHeld(s.handlers[c].pc) :: id)
  }

  ghost predicate Covered(s: State, id: string) {
    id in s.inner.commands ==> QueuedSomewhere(s.inner.queues, id) || id in InFlight(s)
  }

  lemma DrainLosesOnlyExpired(qs: Queues, now: nat, id: string)
    requires QueuedSomewhere(qs, id)
    ensures QueuedSomewhere(AfterDrain(qs, now), id) || id in ExpiredIds(qs, now)
  {
    var n :| n in qs && Queued(qs, n, id);
    var k: nat :| k < |qs[n]| && qs[n][k].taskId == id;
    if !Expired(qs[n][k], now) {
      RetainMembers(LiveAt(now), qs[n]);
      var r := Retain(LiveAt(now), qs[n]);
      assert qs[n][k] in r;
      var j: nat :| j < |r| && r[j] == qs[n][k];
      assert Queued(AfterDrain(qs, now), n, id);
    }
  }

  lemma AckLosesOnlyNamed(qs: Queues, node: string, acked: string, id: string)
    requires QueuedSomewhere(qs, id) && id != acked
    ensures QueuedSomewhere(AfterAck(qs, node, acked), id)
  {
    var n :| n in qs && Queued(qs, n, id);
    AckKeepsOthers(qs, node, acked, n, id);
  }

  lemma AckKeepsOthers(qs: Queues, node: string, acked: string, n: string, id: string)
    requires Queued(qs, n, id) && (id != acked || n != node)
    ensures Queued(AfterAck(qs, node, acked), n, id)
  {
    var k: nat :| k < |qs[n]| && qs[n][k].taskId == id;
    if n == node {
      RetainMembers(OtherThan(acked), qs[n]);
      var r := Retain(OtherThan(acked), qs[n]);
      assert qs[n][k] in r;
      var j: nat :| j < |r| && r[j] == qs[n][k];
    } else {
      assert AfterAck(qs, node, acked)[n] == qs[n];
    }
  }

  lemma PushLosesOnlyEvicted(qs: Queues, node: string, t: QueuedTask, maxDepth: nat, id: string)
    requires QueuedSomewhere(qs, id)
    ensures QueuedSomewhere(AfterEnqueue(qs, node, t, maxDepth), id) || EvictedBy(qs, node, maxDepth) == Some(id)
  {
    var n :| n in qs && Queued(qs, n, id);
    var k: nat :| k < |qs[n]| && qs[n][k].taskId == id;
    var after := AfterEnqueue(qs, node, t, maxDepth);
    if n != node {
      assert after[n] == qs[n];
      assert Queued(after, n, id);
    } else if !(MustEvict(qs[n], maxDepth) && k == 0) {
      var j := if MustEvict(qs[n], maxDepth) then k - 1 else k;
      assert after[n][j] == qs[n][k];
      assert Queued(after, n, id);
    }
  }

  lemma PushQueues(qs: Queues, node: string, t: QueuedTask, maxDepth: nat)
    ensures Queued(AfterEnqueue(qs, node, t, maxDepth), node, t.taskId)
  {
    var q := AfterEnqueue(qs, node, t, maxDepth)[node];
    assert q[|q| - 1] == t;
  }

  /** A command that is in the map after a sender's step was accounted for by the sender, the queues or
      someone else before, and is by the same or the next of these after. */
  lemma SenderCovers(cfg: Config, b: Inner, i: nat, t: Sender, id: string)
    requires SenderReady(b, t)
    ensures var (b', pc) := SenderMove(cfg, b, i, t);
      id in b'.commands ==>
        QueuedSomewhere(b'.queues, id) || id in SenderHeld(pc, t.taskId) ||
        (id in b.commands && !QueuedSomewhere(b.queues, id) && id !in SenderHeld(t.pc, t.taskId))
  {
    if t.pc.EnqueueTask? {
      var mid := AfterDrain(b.queues, b.now);
      var task := QueuedTask(t.msg, t.taskId, b.now, cfg.ttl);
      PushQueues(mid, t.node, task, cfg.maxDepth);
      if QueuedSomewhere(b.queues, id) {
        DrainLosesOnlyExpired(b.queues, b.now, id);
        if QueuedSomewhere(mid, id) { PushLosesOnlyEvicted(mid, t.node, task, cfg.maxDepth, id); }
      }
      assert id == t.taskId ==> QueuedSomewhere(QueuesAfterEnqueue(cfg, b, t), id);
      hide AfterDrain, AfterEnqueue, EvictedBy, ExpiredIds, QueuedSomewhere;
    } else {
      hide LostByEnqueue, QueuesAfterEnqueue, QueuedSomewhere;
    }
  }

  /** What a handler's step does to the map, the queues and the ids it answers for. */
  lemma HandlerHolds(cfg: Config, b: Inner, c: nat, h: Handler, admitted: bool)
    requires HandlerReady(b, h)
    ensures var (b', h') := HandlerMove(cfg, b, c, h, admitted);
      match h.pc
      case DrainQueue(_) =>
        b'.queues == AfterDrain(b.queues, b.now) && b'.commands == b.commands &&
        HandlerHeld(h'.pc) == ExpiredIds(b.queues, b.now)
      case PurgeExpired(_, ids) => b'.queues == b.queues && b'.commands == b.commands - ids
      case Dequeue(n, id, _) =>
        b'.queues == AfterAck(b.queues, n, id) && b'.commands == b.commands && HandlerHeld(h'.pc) == {id}
      case TakeCommand(_, id, _) => b'.queues == b.queues && b'.commands == b.commands - {id}
      case _ => b'.queues == b.queues && b'.commands == b.commands
  {
    hide AfterDrain, AfterAck, ExpiredIds, PendingOf, RegistrationAck, CapabilityOf, TakenCommand, NodeOf;
    hide PcAfterRoute, Routing.RouteMessage, Registry.Upserted, Registry.PositionIn;
  }

  lemma HandlerCovers(cfg: Config, b: Inner, c: nat, h: Handler, admitted: bool, id: string)
    requires HandlerReady(b, h)
    ensures var (b', h') := HandlerMove(cfg, b, c, h, admitted);
      id in b'.commands ==>
        QueuedSomewhere(b'.queues, id) || id in HandlerHeld(h'.pc) ||
        (id in b.commands && !QueuedSomewhere(b.queues, id) && id !in HandlerHeld(h.pc))
  {
    if QueuedSomewhere(b.queues, id) {
      DrainLosesOnlyExpired(b.queues, b.now, id);
      if h.pc.Dequeue? && id != h.pc.taskId { AckLosesOnlyNamed(b.queues, h.pc.node, h.pc.taskId, id); }
    }
    HandlerHolds(cfg, b, c, h, admitted);
    hide HandlerMove, HandlerReady, AfterDrain, AfterAck, ExpiredIds, QueuedSomewhere;
  }

  lemma CoveredStep(cfg: Config, s: State, a: Action, id: string)
    requires Enabled(s, a) && Covered(s, id)
    ensures Covered(Apply(cfg, s, a), id)
  {
    if a.HandlerStep? {
      hide Covered;
      CoveredAfterHandler(cfg, s, a.c, a.admitted, id);
    } else if a.SenderStep? {
      hide Covered;
      CoveredAfterSender(cfg, s, a.i, id);
    } else {
      hide QueuedSomewhere, AlertAck, Routing.ExtractTaskId;
      HeldStays(s, Apply(cfg, s, a), id);
    }
  }

  lemma CoveredAfterHandler(cfg: Config, s: State, c: nat, admitted: bool, id: string)
    requires Enabled(s, HandlerStep(c, admitted)) && Covered(s, id)
    ensures Covered(HandlerApply(cfg, s, c, admitted), id)
  {
    var t := HandlerApply(cfg, s, c, admitted);
    if id in t.inner.commands && !QueuedSomewhere(t.inner.queues, id) {
      HandlerCovers(cfg, s.inner, c, s.handlers[c], admitted, id);
      hide HandlerMove, HandlerReady, QueuedSomewhere;
      HandlerHeldShows(t, c, id);
      HeldStays(s, t, id);
    }
  }

  lemma CoveredAfterSender(cfg: Config, s: State, i: nat, id: string)
    requires SenderEnabled(s, i) && Covered(s, id)
    ensures Covered(SenderApply(cfg, s, i), id)
  {
    var t := SenderApply(cfg, s, i);
    if id in t.inner.commands && !QueuedSomewhere(t.inner.queues, id) {
      if s.senders[i].pc.SendLive? {
        HeldStays(s, t, id);
      } else {
        SenderCovers(cfg, s.inner, i, s.senders[i], id);
        hide SenderMove, QueuedSomewhere;
        SenderHeldShows(t, i, id);
        HeldStays(s, t, id);
      }
    }
  }

  lemma SenderHeldShows(s: State, i: nat, id: string)
    requires i < |s.senders|
    ensures id in SenderHeld(s.senders[i].pc, s.senders[i].taskId) ==> id in InFlight(s)
  {
  }

  lemma HandlerHeldShows(s: State, c: nat, id: string)
    requires c < |s.handlers|
    ensures id in HandlerHeld(s.handlers[c].pc) ==> id in InFlight(s)
  {
  }

  /** An id in flight stays in flight as long as its holder keeps it. */
  lemma HeldStays(s: State, t: State, id: string)
    requires |s.senders| <= |t.senders| && |s.handlers| <= |t.handlers|
    requires forall i :: 0 <= i < |s.senders| && id in SenderHeld(s.senders[i].pc, s.senders[i].taskId) ==>
      id in SenderHeld(t.senders[i].pc, t.senders[i].taskId)
    requires forall c :: 0 <= c < |s.handlers| && id in HandlerHeld(s.handlers[c].pc) ==>
      id in HandlerHeld(t.handlers[c].pc)
    ensures id in InFlight(s) ==> id in InFlight(t)
  {
  }

  lemma {:induction false} CoveredHolds(cfg: Config, s: State, actions: seq<Action>, t: State, id: string)
    requires Run(cfg, s, actions, t) && Covered(s, id)
    ensures Covered(t, id)
    decreases |actions|
  {
    if actions != [] {
      CoveredStep(cfg, s, actions[0], id);
      hide Covered, Apply, Enabled;
      CoveredHolds(cfg, Apply(cfg, s, actions[0]), actions[1..], t, id);
    }
  }

  function QueuedIds(qs: Queues): set<string> {
    set n, k | n in qs && 0 <= k < |qs[n]| :: qs[n][k].taskId
  }

  function IdSet(q: Queue): set<string> { set k | 0 <= k < |q| :: q[k].taskId }

  lemma {:induction false} IdSetSize(q: Queue)
    ensures |IdSet(q)| <= |q|
  {
    if q != [] {
      IdSetSize(q[1..]);
      assert IdSet(q) == {q[0].taskId} + IdSet(q[1..]) by {
        forall id | id in IdSet(q) ensures id == q[0].taskId || id in IdSet(q[1..]) {
          var k :| 0 <= k < |q| && q[k].taskId == id;
          if k > 0 { assert q[1..][k - 1].taskId == id; }
        }
        forall id | id in IdSet(q[1..]) ensures id in IdSet(q) {
          var k :| 0 <= k < |q[1..]| && q[1..][k].taskId == id;
          assert q[k + 1].taskId == id;
        }
      }
    }
  }

  lemma {:induction false} QueuedIdsSize(qs: Queues, d: nat)
    requires forall n :: n in qs ==> |qs[n]| <= d
    ensures |QueuedIds(qs)| <= |qs| * d
    decreases |qs|
  {
    hide QueuedIds, IdSet;
    if qs == map[] {
      NothingQueued();
    } else {
      var n :| n in qs;
      RemoveOneNode(qs, n);
      QueuedIdsSplit(qs, n);
      IdSetSize(qs[n]);
      QueuedIdsSize(qs - {n}, d);
      SubsetSize(QueuedIds(qs), IdSet(qs[n]), QueuedIds(qs - {n}));
      OneMore(|qs - {n}|, d);
    }
  }

  lemma RemoveOneNode(qs: Queues, n: string)
    requires n in qs
    ensures |qs| == |qs - {n}| + 1
  {
    assert (qs - {n}).Keys == qs.Keys - {n};
    assert |qs| == |qs.Keys| && |qs - {n}| == |(qs - {n}).Keys|;
  }

  lemma NothingQueued()
    ensures QueuedIds(map[]) == {}
  {
  }

  lemma OneMore(k: nat, d: nat)
    ensures (k + 1) * d == k * d + d
    ensures 0 * d == 0
  {
  }

  lemma QueuedIdsSplit(qs: Queues, n: string)
    requires n in qs
    ensures QueuedIds(qs) <= IdSet(qs[n]) + QueuedIds(qs - {n})
  {
    var rest := qs - {n};
    forall id | id in QueuedIds(qs) ensures id in IdSet(qs[n]) || id in QueuedIds(rest) {
      var m, k :| m in qs && 0 <= k < |qs[m]| && qs[m][k].taskId == id;
      assert m != n ==> m in rest && rest[m] == qs[m];
    }
  }

  lemma {:induction false} SubsetSize(a: set<string>, b: set<string>, c: set<string>)
    requires a <= b + c
    ensures |a| <= |b| + |c|
    decreases |a|
  {
    if x :| x in a {
      SubsetSize(a - {x}, b - {x}, c - {x});
      assert |a - {x}| == |a| - 1;
    }
  }

  /** No correlation leaks: in every reachable state the map is no larger than the queues can be, plus the
      ids of the operations under way. Idle, it is bounded by nodes * max(1, depth). */
  lemma {:induction false} CommandsAreBounded(cfg: Config, actions: seq<Action>, s: State)
    requires Run(cfg, START, actions, s)
    ensures forall id :: id in s.inner.commands ==> QueuedSomewhere(s.inner.queues, id) || id in InFlight(s)
    ensures |s.inner.commands| <= |s.inner.queues| * Max(1, cfg.maxDepth) + |InFlight(s)|
  {
    BridgeLocks.InvHolds(cfg, START, actions, s);
    hide InFlight, Run, QueuedSomewhere;
    forall id | id in s.inner.commands
      ensures QueuedSomewhere(s.inner.queues, id) || id in InFlight(s)
      ensures id in QueuedIds(s.inner.queues) || id in InFlight(s)
    {
      CoveredHolds(cfg, START, actions, s, id);
      QueuedIsListed(s.inner.queues, id);
    }
    QueuedIdsSize(s.inner.queues, Max(1, cfg.maxDepth));
    SubsetSize(s.inner.commands.Keys, QueuedIds(s.inner.queues), InFlight(s));
  }

  lemma QueuedIsListed(qs: Queues, id: string)
    ensures QueuedSomewhere(qs, id) ==> id in QueuedIds(qs)
  {
  }
}
