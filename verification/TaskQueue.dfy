// Per-node DIL outbound task queue: FIFO per node, bounded depth with oldest-first eviction, TTL expiry.
// The class updates its map in place; a ghost log of every enqueue says what became of each task.

module TaskQueues {
  import opened Base
  import opened Sapient

  datatype QueuedTask = QueuedTask(msg: SapientMessage, taskId: string, enqueuedAt: nat, ttl: nat)

  type Queue = seq<QueuedTask>
  type Queues = map<string, Queue>

  function PendingOf(qs: Queues, node: string): Queue { if node in qs then qs[node] else [] }

  predicate Expired(t: QueuedTask, now: nat) { now - t.enqueuedAt > t.ttl }

  function ExpiredAt(now: nat): QueuedTask -> bool { (t: QueuedTask) => Expired(t, now) }

  function LiveAt(now: nat): QueuedTask -> bool { (t: QueuedTask) => !Expired(t, now) }

  function OtherThan(id: string): QueuedTask -> bool { (t: QueuedTask) => t.taskId != id }

  function Keep(p: QueuedTask -> bool, t: QueuedTask): Queue { if p(t) then [t] else [] }

  /** `VecDeque::retain`: the tasks that satisfy `p`, in order. */
  function Retain(p: QueuedTask -> bool, q: Queue): (r: Queue)
    ensures |r| <= |q|
  {
    if q == [] then [] else Keep(p, q[0]) + Retain(p, q[1..])
  }

  lemma {:induction false} RetainAppend(p: QueuedTask -> bool, q: Queue, r: Queue)
    ensures Retain(p, q + r) == Retain(p, q) + Retain(p, r)
  {
    if q == [] {
      assert q + r == r;
    } else {
      var qr := q + r;
      assert qr[0] == q[0] && qr[1..] == q[1..] + r;
      RetainAppend(p, q[1..], r);
      calc {
        Retain(p, qr);
        Keep(p, q[0]) + Retain(p, q[1..] + r);
        Keep(p, q[0]) + (Retain(p, q[1..]) + Retain(p, r));
      }
    }
  }

  lemma {:induction false} RetainMembers(p: QueuedTask -> bool, q: Queue)
    ensures forall t :: t in Retain(p, q) <==> t in q && p(t)
  {
    if q != [] {
      RetainMembers(p, q[1..]);
      assert q == [q[0]] + q[1..];
    }
  }

  lemma {:induction false} RetainAll(p: QueuedTask -> bool, q: Queue)
    requires forall t :: t in q ==> p(t)
    ensures Retain(p, q) == q
  {
    if q != [] { RetainAll(p, q[1..]); }
  }

  lemma {:induction false} RetainNone(p: QueuedTask -> bool, q: Queue)
    requires forall t :: t in q ==> !p(t)
    ensures Retain(p, q) == []
  {
    if q != [] { RetainNone(p, q[1..]); }
  }

  function Ids(q: Queue): (ids: seq<string>)
    ensures |ids| == |q|
    ensures forall k :: 0 <= k < |q| ==> ids[k] == q[k].taskId
  {
    if q == [] then [] else [q[0].taskId] + Ids(q[1..])
  }

  // ---- what each operation does to the map ----

  predicate MustEvict(q: Queue, maxDepth: nat) { |q| >= maxDepth && q != [] }

  function Pushed(q: Queue, t: QueuedTask, maxDepth: nat): Queue {
    (if MustEvict(q, maxDepth) then q[1..] else q) + [t]
  }

  function AfterEnqueue(qs: Queues, node: string, t: QueuedTask, maxDepth: nat): Queues {
    qs[node := Pushed(PendingOf(qs, node), t, maxDepth)]
  }

  function EvictedBy(qs: Queues, node: string, maxDepth: nat): Option<string> {
    var q := PendingOf(qs, node);
    if MustEvict(q, maxDepth) then Some(q[0].taskId) else None
  }

  function AfterAck(qs: Queues, node: string, id: string): Queues {
    if node in qs then qs[node := Retain(OtherThan(id), qs[node])] else qs
  }

  function AfterDrain(qs: Queues, now: nat): Queues {
    map n | n in qs :: Retain(LiveAt(now), qs[n])
  }

  /** Ids of the tasks a drain at `now` removes, queue by queue in the order `nodes`. */
  function ExpiredInOrder(qs: Queues, nodes: seq<string>, now: nat): seq<string> {
    if nodes == [] then []
    else
      var last := nodes[|nodes| - 1];
      ExpiredInOrder(qs, nodes[..|nodes| - 1], now) + Ids(Retain(ExpiredAt(now), PendingOf(qs, last)))
  }

  /** `nodes` lists every key once: an iteration order of the hash map. */
  ghost predicate IterationOrder(qs: Queues, nodes: seq<string>) {
    (forall n :: n in nodes <==> n in qs) &&
    (forall i, j :: 0 <= i < j < |nodes| ==> nodes[i] != nodes[j])
  }

  predicate Queued(qs: Queues, node: string, id: string) {
    node in qs && exists k :: 0 <= k < |qs[node]| && qs[node][k].taskId == id
  }

  /** Ids of the tasks whose TTL has elapsed at `now`. */
  function ExpiredIds(qs: Queues, now: nat): set<string> {
    set n, k | n in qs && 0 <= k < |qs[n]| && Expired(qs[n][k], now) :: qs[n][k].taskId
  }

  // ---- the enqueue log of one node ----

  datatype Fate = Pending | Acked | Evicted | TimedOut(at: nat)

  datatype LogEntry = LogEntry(task: QueuedTask, fate: Fate)

  type Log = seq<LogEntry>

  function LogOf(logs: map<string, Log>, node: string): Log { if node in logs then logs[node] else [] }

  function OpenTask(e: LogEntry): Queue { if e.fate == Pending then [e.task] else [] }

  /** The pending tasks of a log, oldest first. */
  function Open(l: Log): Queue {
    if l == [] then [] else OpenTask(l[0]) + Open(l[1..])
  }

  function LogEvict(l: Log): (r: Log)
    ensures |r| == |l|
  {
    if l == [] then []
    else if l[0].fate == Pending then [l[0].(fate := Evicted)] + l[1..]
    else [l[0]] + LogEvict(l[1..])
  }

  function LogEnqueue(l: Log, t: QueuedTask, maxDepth: nat): Log {
    (if MustEvict(Open(l), maxDepth) then LogEvict(l) else l) + [LogEntry(t, Pending)]
  }

  function LogAck(l: Log, id: string): (r: Log)
    ensures |r| == |l|
    ensures forall k :: 0 <= k < |l| ==>
      r[k] == if l[k].fate == Pending && l[k].task.taskId == id then l[k].(fate := Acked) else l[k]
  {
    if l == [] then []
    else [if l[0].fate == Pending && l[0].task.taskId == id then l[0].(fate := Acked) else l[0]] + LogAck(l[1..], id)
  }

  function LogDrain(l: Log, now: nat): (r: Log)
    ensures |r| == |l|
    ensures forall k :: 0 <= k < |l| ==>
      r[k] == if l[k].fate == Pending && Expired(l[k].task, now) then l[k].(fate := TimedOut(now)) else l[k]
  {
    if l == [] then []
    else [if l[0].fate == Pending && Expired(l[0].task, now) then l[0].(fate := TimedOut(now)) else l[0]]
         + LogDrain(l[1..], now)
  }

  predicate Lost(f: Fate) { f.Evicted? || f.TimedOut? }

  /** What every log satisfies: tasks are in enqueue order and share one TTL; nothing is pending behind a
      task that fell off the front; each loss has its cause. */
  ghost predicate GoodLog(l: Log, maxDepth: nat, ttl: nat, clock: nat) {
    Consistent(l, maxDepth, ttl, clock, 0) && |Open(l)| <= Max(1, maxDepth)
  }

  /** `spare` is how much longer the log will be once the operation under way is over. */
  ghost predicate Consistent(l: Log, maxDepth: nat, ttl: nat, clock: nat, spare: nat) {
    InOrder(l, ttl, clock) && LossesFirst(l) && Justified(l, maxDepth, spare)
  }

  ghost predicate InOrder(l: Log, ttl: nat, clock: nat) {
    (forall k :: 0 <= k < |l| ==> l[k].task.ttl == ttl && l[k].task.enqueuedAt <= clock) &&
    (forall i, j :: 0 <= i < j < |l| ==> l[i].task.enqueuedAt <= l[j].task.enqueuedAt)
  }

  ghost predicate LossesFirst(l: Log) {
    forall i, j :: 0 <= i < j < |l| && Lost(l[j].fate) ==> l[i].fate != Pending
  }

  ghost predicate Justified(l: Log, maxDepth: nat, spare: nat) {
    forall k :: 0 <= k < |l| ==>
      (l[k].fate.TimedOut? ==> l[k].fate.at > l[k].task.enqueuedAt + l[k].task.ttl) &&
      (l[k].fate.Evicted? ==> k + Max(1, maxDepth) < |l| + spare)
  }

  // ---- the log commutes with the queue ----

  lemma {:induction false} OpenAppend(l: Log, m: Log)
    ensures Open(l + m) == Open(l) + Open(m)
  {
    if l == [] {
      assert l + m == m;
    } else {
      var lm := l + m;
      assert lm[0] == l[0] && lm[1..] == l[1..] + m;
      OpenAppend(l[1..], m);
      calc {
        Open(lm);
        OpenTask(l[0]) + Open(l[1..] + m);
        OpenTask(l[0]) + (Open(l[1..]) + Open(m));
      }
    }
  }

  lemma {:induction false} OpenAfterEvict(l: Log)
    requires Open(l) != []
    ensures Open(LogEvict(l)) == Open(l)[1..]
  {
    if l[0].fate == Pending {
      assert LogEvict(l)[1..] == l[1..];
    } else {
      OpenAfterEvict(l[1..]);
      assert LogEvict(l)[1..] == LogEvict(l[1..]);
    }
  }

  lemma {:induction false} OpenAfterAck(l: Log, id: string)
    ensures Open(LogAck(l, id)) == Retain(OtherThan(id), Open(l))
  {
    if l != [] {
      OpenAfterAck(l[1..], id);
      assert LogAck(l, id)[1..] == LogAck(l[1..], id);
      RetainAppend(OtherThan(id), OpenTask(l[0]), Open(l[1..]));
    }
  }

  lemma {:induction false} OpenAfterDrain(l: Log, now: nat)
    ensures Open(LogDrain(l, now)) == Retain(LiveAt(now), Open(l))
  {
    if l != [] {
      OpenAfterDrain(l[1..], now);
      assert LogDrain(l, now)[1..] == LogDrain(l[1..], now);
      RetainAppend(LiveAt(now), OpenTask(l[0]), Open(l[1..]));
    }
  }

  /** Eviction marks exactly the first pending entry. */
  lemma {:induction false} EvictMarksFirst(l: Log) returns (e: nat)
    requires Open(l) != []
    ensures e < |l| && l[e].fate == Pending && LogEvict(l) == l[e := l[e].(fate := Evicted)]
    ensures forall k :: 0 <= k < e ==> l[k].fate != Pending
    ensures e + |Open(l)| <= |l|
  {
    if l[0].fate == Pending {
      e := 0;
      OpenShort(l);
    } else {
      e := EvictMarksFirst(l[1..]);
      e := e + 1;
      assert l == [l[0]] + l[1..];
    }
  }

  lemma {:induction false} OpenShort(l: Log)
    ensures |Open(l)| <= |l|
  {
    if l != [] { OpenShort(l[1..]); }
  }

  lemma {:induction false} EnqueueKeepsLogGood(l: Log, t: QueuedTask, maxDepth: nat, ttl: nat, clock: nat)
    requires GoodLog(l, maxDepth, ttl, clock)
    requires t.ttl == ttl && clock <= t.enqueuedAt
    ensures GoodLog(LogEnqueue(l, t, maxDepth), maxDepth, ttl, t.enqueuedAt)
    ensures Open(LogEnqueue(l, t, maxDepth)) == Pushed(Open(l), t, maxDepth)
  {
    var mid := if MustEvict(Open(l), maxDepth) then LogEvict(l) else l;
    var r := mid + [LogEntry(t, Pending)];
    assert Open(r) == Pushed(Open(l), t, maxDepth) by {
      if MustEvict(Open(l), maxDepth) { OpenAfterEvict(l); }
      OpenAppend(mid, [LogEntry(t, Pending)]);
    }
    if MustEvict(Open(l), maxDepth) {
      var e := EvictMarksFirst(l);
      EvictKeepsOrder(l, e, maxDepth, ttl, clock);
    }
    PushKeepsOrder(mid, t, maxDepth, ttl, clock);
  }

  lemma {:induction false} EvictKeepsOrder(l: Log, e: nat, maxDepth: nat, ttl: nat, clock: nat)
    requires GoodLog(l, maxDepth, ttl, clock)
    requires e + |Open(l)| <= |l| && Max(1, maxDepth) <= |Open(l)|
    requires e < |l| && l[e].fate == Pending && forall k :: 0 <= k < e ==> l[k].fate != Pending
    ensures Consistent(l[e := l[e].(fate := Evicted)], maxDepth, ttl, clock, 1)
  {
    var r := l[e := l[e].(fate := Evicted)];
    assert forall k :: 0 <= k < |l| ==> r[k].task == l[k].task && (k != e ==> r[k] == l[k]);
    assert InOrder(r, ttl, clock);
    assert LossesFirst(r);
  }

  lemma PushKeepsOrder(l: Log, t: QueuedTask, maxDepth: nat, ttl: nat, clock: nat)
    requires Consistent(l, maxDepth, ttl, clock, 1)
    requires t.ttl == ttl && clock <= t.enqueuedAt
    ensures Consistent(l + [LogEntry(t, Pending)], maxDepth, ttl, t.enqueuedAt, 0)
  {
    var r := l + [LogEntry(t, Pending)];
    assert forall k :: 0 <= k < |l| ==> r[k] == l[k];
    assert InOrder(r, ttl, t.enqueuedAt);
    assert LossesFirst(r);
  }

  lemma {:induction false} AckKeepsLogGood(l: Log, id: string, maxDepth: nat, ttl: nat, clock: nat)
    requires GoodLog(l, maxDepth, ttl, clock)
    ensures GoodLog(LogAck(l, id), maxDepth, ttl, clock)
  {
    OpenAfterAck(l, id);
    hide Open, Retain, LogAck;
    var r := LogAck(l, id);
    assert forall k :: 0 <= k < |l| ==> r[k].task == l[k].task && (Lost(r[k].fate) ==> r[k] == l[k]);
    assert InOrder(r, ttl, clock) && LossesFirst(r) && Justified(r, maxDepth, 0);
  }

  lemma {:induction false} DrainKeepsLogGood(l: Log, now: nat, maxDepth: nat, ttl: nat, clock: nat)
    requires GoodLog(l, maxDepth, ttl, clock) && clock <= now
    ensures GoodLog(LogDrain(l, now), maxDepth, ttl, now)
  {
    OpenAfterDrain(l, now);
    hide Open, Retain, LogDrain;
    var r := LogDrain(l, now);
    assert forall k :: 0 <= k < |l| ==> r[k].task == l[k].task;
    assert InOrder(r, ttl, now);
    assert LossesFirst(r) && Justified(r, maxDepth, 0);
  }

  /** `q` is the pending list of the log `l`. */
  ghost predicate Agrees(q: Queue, l: Log, maxDepth: nat, ttl: nat, clock: nat) {
    q == Open(l) && GoodLog(l, maxDepth, ttl, clock)
  }

  lemma EnqueueAgrees(q: Queue, l: Log, t: QueuedTask, maxDepth: nat, ttl: nat, clock: nat)
    requires Agrees(q, l, maxDepth, ttl, clock)
    requires t.ttl == ttl && clock <= t.enqueuedAt
    ensures Agrees(Pushed(q, t, maxDepth), LogEnqueue(l, t, maxDepth), maxDepth, ttl, t.enqueuedAt)
  {
    EnqueueKeepsLogGood(l, t, maxDepth, ttl, clock);
  }

  lemma {:induction false} AckAgrees(q: Queue, l: Log, id: string, maxDepth: nat, ttl: nat, clock: nat)
    requires Agrees(q, l, maxDepth, ttl, clock)
    ensures Agrees(Retain(OtherThan(id), q), LogAck(l, id), maxDepth, ttl, clock)
  {
    OpenAfterAck(l, id);
    AckKeepsLogGood(l, id, maxDepth, ttl, clock);
  }

  lemma {:induction false} DrainAgrees(q: Queue, l: Log, now: nat, maxDepth: nat, ttl: nat, clock: nat)
    requires Agrees(q, l, maxDepth, ttl, clock) && clock <= now
    ensures Agrees(Retain(LiveAt(now), q), LogDrain(l, now), maxDepth, ttl, now)
  {
    OpenAfterDrain(l, now);
    DrainKeepsLogGood(l, now, maxDepth, ttl, clock);
  }

  lemma IdleAgrees(q: Queue, l: Log, maxDepth: nat, ttl: nat, clock: nat, now: nat)
    requires Agrees(q, l, maxDepth, ttl, clock) && clock <= now
    ensures Agrees(q, l, maxDepth, ttl, now)
  {
  }

  lemma EmptyAgrees(maxDepth: nat, ttl: nat, clock: nat)
    ensures Agrees([], [], maxDepth, ttl, clock)
  {
  }

  /** A queue of depth zero still holds the task enqueued last, and no other. */
  lemma ZeroDepthHoldsOne(q: Queue, t: QueuedTask)
    requires |q| <= 1
    ensures Pushed(q, t, 0) == [t] && Pushed([], t, 0) == [t]
  {
    if q != [] { assert q[1..] == []; }
  }

  // ---- what the log says about the queue ----

  function UnackedTask(e: LogEntry): Queue { if e.fate == Acked then [] else [e.task] }

  function Unacked(l: Log): Queue {
    if l == [] then [] else UnackedTask(l[0]) + Unacked(l[1..])
  }

  /** A pending list is a suffix of the enqueue log with the acked tasks taken out; everything before the
      suffix is settled, and everything in it is pending or acked. */
  lemma {:induction false} PendingIsSuffixLessAcked(l: Log, maxDepth: nat, ttl: nat, clock: nat) returns (cut: nat)
    requires GoodLog(l, maxDepth, ttl, clock)
    ensures cut <= |l| && Open(l) == Unacked(l[cut..])
    ensures forall k :: 0 <= k < cut ==> l[k].fate != Pending
    ensures forall k :: cut <= k < |l| ==> l[k].fate == Pending || l[k].fate == Acked
  {
    hide Open, Unacked, Consistent;
    assert LossesFirst(l) by { LossesAreFirst(l, maxDepth, ttl, clock); }
    cut := |l|;
    while cut > 0 && !Lost(l[cut - 1].fate)
      invariant cut <= |l|
      invariant forall k :: cut <= k < |l| ==> l[k].fate == Pending || l[k].fate == Acked
    {
      cut := cut - 1;
    }
    assert l == l[..cut] + l[cut..];
    OpenAppend(l[..cut], l[cut..]);
    NothingOpen(l[..cut]);
    NothingLost(l[cut..]);
  }

  lemma LossesAreFirst(l: Log, maxDepth: nat, ttl: nat, clock: nat)
    requires GoodLog(l, maxDepth, ttl, clock)
    ensures LossesFirst(l)
  {
  }

  lemma {:induction false} NothingLost(l: Log)
    requires forall k :: 0 <= k < |l| ==> l[k].fate == Pending || l[k].fate == Acked
    ensures Open(l) == Unacked(l)
  {
    if l != [] { NothingLost(l[1..]); }
  }

  lemma {:induction false} NothingOpen(l: Log)
    requires forall k :: 0 <= k < |l| ==> l[k].fate != Pending
    ensures Open(l) == []
  {
    if l != [] { NothingOpen(l[1..]); }
  }

  ghost predicate Ordered(q: Queue, ttl: nat) {
    (forall k :: 0 <= k < |q| ==> q[k].ttl == ttl) &&
    (forall i, j :: 0 <= i < j < |q| ==> q[i].enqueuedAt <= q[j].enqueuedAt)
  }

  /** The open tasks sit in the log in order, so they inherit its order and TTL. */
  lemma {:induction false} OpenOrdered(l: Log, ttl: nat)
    requires forall k :: 0 <= k < |l| ==> l[k].task.ttl == ttl
    requires forall i, j :: 0 <= i < j < |l| ==> l[i].task.enqueuedAt <= l[j].task.enqueuedAt
    ensures Ordered(Open(l), ttl)
    ensures forall t :: t in Open(l) ==> exists k :: 0 <= k < |l| && l[k].task == t
  {
    if l != [] {
      OpenOrdered(l[1..], ttl);
      assert l[0].task == l[0].task;
      forall t | t in Open(l[1..]) ensures exists k :: 0 < k < |l| && l[k].task == t {
        var k :| 0 <= k < |l[1..]| && l[1..][k].task == t;
        assert l[k + 1].task == t;
      }
      var rest := Open(l[1..]);
      assert forall t :: t in rest ==> l[0].task.enqueuedAt <= t.enqueuedAt && t.ttl == ttl;
      assert forall k :: 0 <= k < |rest| ==> rest[k] in rest;
    }
  }

  lemma {:induction false} RetainStep(p: QueuedTask -> bool, q: Queue)
    requires q != []
    ensures p(q[0]) ==> Retain(p, q) == [q[0]] + Retain(p, q[1..])
    ensures !p(q[0]) ==> Retain(p, q) == Retain(p, q[1..])
  {
    assert [] + Retain(p, q[1..]) == Retain(p, q[1..]);
  }

  lemma SplitBehindHead(q: Queue, k: nat)
    requires q != [] && k < |q|
    ensures q[1..][k..] == q[k + 1..] && [q[0]] + q[1..][..k] == q[..k + 1]
  {
  }

  lemma OrderedTail(q: Queue, ttl: nat)
    requires q != [] && Ordered(q, ttl)
    ensures Ordered(q[1..], ttl)
  {
  }

  /** Expiry takes exactly a prefix of an ordered queue, and reports exactly that prefix. */
  lemma {:induction false} DrainRemovesPrefix(q: Queue, ttl: nat, now: nat) returns (k: nat)
    requires Ordered(q, ttl)
    ensures k <= |q|
    ensures Retain(LiveAt(now), q) == q[k..]
    ensures Retain(ExpiredAt(now), q) == q[..k]
  {
    if q == [] {
      k := 0;
    } else if Expired(q[0], now) {
      RetainStep(LiveAt(now), q);
      RetainStep(ExpiredAt(now), q);
      OrderedTail(q, ttl);
      hide Retain, Ordered, Expired;
      k := DrainRemovesPrefix(q[1..], ttl, now);
      SplitBehindHead(q, k);
      k := k + 1;
    } else {
      k := 0;
      AllLive(q, ttl, now);
      hide Ordered, Expired;
      RetainAll(LiveAt(now), q);
      RetainNone(ExpiredAt(now), q);
      hide Retain;
    }
  }

  /** Behind a live task, everything is live. */
  lemma AllLive(q: Queue, ttl: nat, now: nat)
    requires Ordered(q, ttl) && q != [] && !Expired(q[0], now)
    ensures forall t :: t in q ==> !Expired(t, now)
  {
    assert forall k :: 0 <= k < |q| ==> q[0].enqueuedAt <= q[k].enqueuedAt && q[k].ttl == ttl;
  }

  /** Some queued task with this id is older than its TTL. */
  ghost predicate OutlivedIn(qs: Queues, id: string, now: nat) {
    exists n, k :: n in qs && 0 <= k < |qs[n]| && qs[n][k].taskId == id && now > qs[n][k].enqueuedAt + qs[n][k].ttl
  }

  /** The ids a drain returns are exactly those of the queued tasks older than their TTL. */
  lemma {:induction false} DrainReportsExpired(qs: Queues, nodes: seq<string>, now: nat, id: string)
    requires IterationOrder(qs, nodes)
    ensures id in ExpiredInOrder(qs, nodes, now) <==> OutlivedIn(qs, id, now)
    ensures id in ExpiredInOrder(qs, nodes, now) <==> id in ExpiredIds(qs, now)
  {
    DrainReportsListed(qs, nodes, now, id);
    hide ExpiredInOrder;
  }

  /** A drain keeps exactly the queued tasks that are no older than their TTL. */
  lemma DrainKeepsLive(qs: Queues, now: nat, node: string, t: QueuedTask)
    ensures t in PendingOf(AfterDrain(qs, now), node) <==>
      t in PendingOf(qs, node) && now <= t.enqueuedAt + t.ttl
  {
    if node in qs { RetainMembers(LiveAt(now), qs[node]); }
  }

  /** `after` holds exactly the tasks of `before` that are no older than their TTL. */
  ghost predicate LeavesLive(before: Queues, after: Queues, now: nat) {
    forall n, t :: t in PendingOf(after, n) <==> t in PendingOf(before, n) && now <= t.enqueuedAt + t.ttl
  }

  ghost predicate ReportsOutlived(qs: Queues, ids: seq<string>, now: nat) {
    forall id :: id in ids <==> OutlivedIn(qs, id, now)
  }

  lemma {:induction false} DrainReports(qs: Queues, nodes: seq<string>, now: nat)
    requires IterationOrder(qs, nodes)
    ensures ReportsOutlived(qs, ExpiredInOrder(qs, nodes, now), now)
  {
    hide OutlivedIn, ExpiredInOrder;
    forall id ensures id in ExpiredInOrder(qs, nodes, now) <==> OutlivedIn(qs, id, now) {
      DrainReportsExpired(qs, nodes, now, id);
    }
  }

  lemma DrainOutcome(qs: Queues, now: nat)
    ensures LeavesLive(qs, AfterDrain(qs, now), now)
  {
    hide PendingOf, AfterDrain;
    forall n: string, t: QueuedTask
      ensures t in PendingOf(AfterDrain(qs, now), n) <==> t in PendingOf(qs, n) && now <= t.enqueuedAt + t.ttl
    {
      DrainKeepsLive(qs, now, n, t);
    }
  }

  /** A task of queue `n` with this id has expired. */
  ghost predicate ExpiredUnder(qs: Queues, n: string, now: nat, id: string) {
    n in qs && exists k :: 0 <= k < |qs[n]| && qs[n][k].taskId == id && Expired(qs[n][k], now)
  }

  lemma {:induction false} DrainReportsListed(qs: Queues, nodes: seq<string>, now: nat, id: string)
    ensures id in ExpiredInOrder(qs, nodes, now) <==> exists n :: n in nodes && ExpiredUnder(qs, n, now, id)
  {
    if nodes != [] {
      var m, last := nodes[..|nodes| - 1], nodes[|nodes| - 1];
      DrainReportsListed(qs, m, now, id);
      assert nodes == m + [last];
      GoneIds(PendingOf(qs, last), now, id);
      assert id in Ids(Retain(ExpiredAt(now), PendingOf(qs, last))) <==> ExpiredUnder(qs, last, now, id);
      hide Ids, Retain, ExpiredUnder, PendingOf;
    }
  }

  lemma {:induction false} GoneIds(q: Queue, now: nat, id: string)
    ensures id in Ids(Retain(ExpiredAt(now), q)) <==>
      exists k :: 0 <= k < |q| && q[k].taskId == id && Expired(q[k], now)
  {
    RetainMembers(ExpiredAt(now), q);
    var gone := Retain(ExpiredAt(now), q);
    hide Retain;
    if id in Ids(gone) {
      var k :| 0 <= k < |gone| && gone[k].taskId == id;
      assert gone[k] in q;
    }
    forall k | 0 <= k < |q| && q[k].taskId == id && Expired(q[k], now) ensures id in Ids(gone) {
      assert q[k] in gone;
      var j :| 0 <= j < |gone| && gone[j] == q[k];
      assert Ids(gone)[j] == id;
    }
  }

  lemma {:induction false} ExpiredInOrderNone(qs: Queues, now: nat)
    ensures ExpiredInOrder(qs, [], now) == []
  {
  }

  lemma {:induction false} ExpiredInOrderNext(qs: Queues, nodes: seq<string>, node: string, now: nat)
    ensures ExpiredInOrder(qs, nodes + [node], now)
         == ExpiredInOrder(qs, nodes, now) + Ids(Retain(ExpiredAt(now), PendingOf(qs, node)))
  {
    assert (nodes + [node])[..|nodes|] == nodes;
  }

  /** The loop over the hash map, which yields its queues in an arbitrary order. */
  method RetainLive(qs: Queues, now: nat) returns (live: Queues, expired: seq<string>, ghost order: seq<string>)
    ensures IterationOrder(qs, order)
    ensures expired == ExpiredInOrder(qs, order, now)
    ensures live == AfterDrain(qs, now)
  {
    hide Retain, Ids, ExpiredInOrder;
    live, expired, order := qs, [], [];
    ExpiredInOrderNone(qs, now);
    var todo := qs.Keys;
    while todo != {}
      invariant todo <= live.Keys == qs.Keys
      invariant forall n :: n in order <==> n in qs && n !in todo
      invariant forall i, j :: 0 <= i < j < |order| ==> order[i] != order[j]
      invariant expired == ExpiredInOrder(qs, order, now)
      invariant forall n :: n in todo ==> live[n] == qs[n]
      invariant forall n :: n in qs && n !in todo ==> live[n] == Retain(LiveAt(now), qs[n])
    {
      var node :| node in todo;
      ExpiredInOrderNext(qs, order, node, now);
      expired := expired + Ids(Retain(ExpiredAt(now), live[node]));
      live := live[node := Retain(LiveAt(now), live[node])];
      todo := todo - {node};
      order := order + [node];
    }
  }

  class TaskQueue {
    var queues: Queues
    const maxDepth: nat
    const defaultTtl: nat
    /** Every task ever enqueued, per node, with what became of it. */
    ghost var logs: map<string, Log>
    /** The latest instant any operation has read. */
    ghost var clock: nat

    ghost predicate Valid()
      reads this
    {
      queues.Keys == logs.Keys &&
      forall n :: n in queues ==> Agrees(queues[n], logs[n], maxDepth, defaultTtl, clock)
    }

    constructor (maxDepth: nat, defaultTtl: nat)
      ensures Valid() && queues == map[] && this.maxDepth == maxDepth && this.defaultTtl == defaultTtl
    {
      this.maxDepth := maxDepth;
      this.defaultTtl := defaultTtl;
      queues := map[];
      logs := map[];
      clock := 0;
    }

    /** `now` is the monotonic clock read inside the call. */
    method Enqueue(node: string, taskId: string, msg: SapientMessage, now: nat) returns (evicted: Option<string>)
      requires Valid() && clock <= now
      modifies this
      ensures Valid() && clock == now
      ensures queues == AfterEnqueue(old(queues), node, QueuedTask(msg, taskId, now, defaultTtl), maxDepth)
      ensures evicted == EvictedBy(old(queues), node, maxDepth)
      ensures logs == old(logs)[
        node := LogEnqueue(LogOf(old(logs), node), QueuedTask(msg, taskId, now, defaultTtl), maxDepth)]
    {
      hide Agrees;
      var queue := if node in queues then queues[node] else [];
      evicted := None;
      if |queue| >= maxDepth {
        if queue != [] {
          evicted := Some(queue[0].taskId);
          queue := queue[1..];
        }
      }
      var task := QueuedTask(msg, taskId, now, defaultTtl);
      assert queue + [task] == Pushed(PendingOf(queues, node), task, maxDepth);
      EnqueueAgreesEverywhere(node, task);
      queues := queues[node := queue + [task]];
      logs := logs[node := LogEnqueue(LogOf(logs, node), task, maxDepth)];
      clock := now;
    }

    lemma EnqueueAgreesEverywhere(node: string, task: QueuedTask)
      requires Valid() && clock <= task.enqueuedAt && task.ttl == defaultTtl
      ensures Agrees(Pushed(PendingOf(queues, node), task, maxDepth), LogEnqueue(LogOf(logs, node), task, maxDepth),
                     maxDepth, defaultTtl, task.enqueuedAt)
      ensures forall n :: n in queues ==> Agrees(queues[n], logs[n], maxDepth, defaultTtl, task.enqueuedAt)
    {
      hide Agrees;
      EmptyAgrees(maxDepth, defaultTtl, clock);
      EnqueueAgrees(PendingOf(queues, node), LogOf(logs, node), task, maxDepth, defaultTtl, clock);
      forall n | n in queues ensures Agrees(queues[n], logs[n], maxDepth, defaultTtl, task.enqueuedAt) {
        IdleAgrees(queues[n], logs[n], maxDepth, defaultTtl, clock, task.enqueuedAt);
      }
    }

    method Ack(node: string, taskId: string)
      requires Valid()
      modifies this
      ensures Valid() && clock == old(clock)
      ensures queues == AfterAck(old(queues), node, taskId)
      ensures logs == if node in old(logs) then old(logs)[node := LogAck(old(logs)[node], taskId)] else old(logs)
    {
      hide Agrees, Retain, LogAck, OtherThan;
      if node in queues {
        AckAgrees(queues[node], logs[node], taskId, maxDepth, defaultTtl, clock);
        queues := queues[node := Retain(OtherThan(taskId), queues[node])];
        logs := logs[node := LogAck(logs[node], taskId)];
      }
    }

    method DrainExpired(now: nat) returns (expired: seq<string>, ghost order: seq<string>)
      requires Valid() && clock <= now
      modifies this
      ensures Valid() && clock == now
      ensures IterationOrder(old(queues), order)
      ensures expired == ExpiredInOrder(old(queues), order, now)
      ensures queues == AfterDrain(old(queues), now)
      ensures logs == map n | n in old(logs) :: LogDrain(old(logs)[n], now)
      ensures LeavesLive(old(queues), queues, now) && ReportsOutlived(old(queues), expired, now)
    {
      DrainOutcome(queues, now);
      hide Agrees, Retain, LogDrain, ExpiredInOrder, LeavesLive, ReportsOutlived, OutlivedIn;
      var live;
      live, expired, order := RetainLive(queues, now);
      DrainReports(queues, order, now);
      forall n | n in queues
        ensures Agrees(live[n], LogDrain(logs[n], now), maxDepth, defaultTtl, now)
      {
        DrainAgrees(queues[n], logs[n], now, maxDepth, defaultTtl, clock);
      }
      queues := live;
      logs := map n | n in logs :: LogDrain(logs[n], now);
      clock := now;
    }

    /** The pending messages in insertion order; the queue is left alone. */
    method PendingFor(node: string) returns (msgs: seq<SapientMessage>)
      requires Valid()
      ensures msgs == Messages(Open(LogOf(logs, node)))
    {
      msgs := if node in queues then Messages(queues[node]) else [];
    }

    method IsEmptyFor(node: string) returns (empty: bool)
      requires Valid()
      ensures empty <==> forall k :: 0 <= k < |LogOf(logs, node)| ==> LogOf(logs, node)[k].fate != Pending
    {
      empty := if node in queues then queues[node] == [] else true;
      OpenEmptyIff(LogOf(logs, node));
    }
  }

  lemma {:induction false} OpenEmptyIff(l: Log)
    ensures Open(l) == [] <==> forall k :: 0 <= k < |l| ==> l[k].fate != Pending
  {
    if l != [] { OpenEmptyIff(l[1..]); }
  }

  function Messages(q: Queue): (ms: seq<SapientMessage>)
    ensures |ms| == |q|
    ensures forall k :: 0 <= k < |q| ==> ms[k] == q[k].msg
  {
    if q == [] then [] else [q[0].msg] + Messages(q[1..])
  }
}
