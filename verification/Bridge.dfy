// The bridge's tasking protocol as a step system: any number of `send_task` and `send_alert_ack` calls and of
// connection handlers, one step per lock section or channel send, interleaved in every way the locks and
// channels allow; and a watchdog that shares the registry.

module Bridge {
  import opened Base
  import opened Sapient
  import opened Transforms
  import opened TaskQueues
  import opened Routing
  import Registry

  const WRITE_CHANNEL_DEPTH: nat := 64
  const UPDATE_CHANNEL_DEPTH: nat := 256

  datatype Config = Config(nodeId: string, maxDepth: nat, ttl: nat, geodesy: Geodesy)

  // ---- one connection's write channel ----

  datatype Origin = FromAck | FromReplay | FromSender(sender: nat) | FromAlert(call: nat)
  {
    /** Queued by somebody other than the connection's own handler. */
    predicate Live() { FromSender? || FromAlert? }
  }

  datatype Offer = Offer(origin: Origin, msg: SapientMessage)

  /** `offers` is every message ever handed to `send`; `buffered` of them wait for the writer task. Once the
      writer has failed the channel is closed and sends return at once. */
  datatype Channel = Channel(offers: seq<Offer>, buffered: nat, open: bool)
  {
    predicate CanSend() { open ==> buffered < WRITE_CHANNEL_DEPTH }

    function Sent(o: Offer): Channel {
      Channel(offers + [o], if open then buffered + 1 else buffered, open)
    }
  }

  // ---- threads ----

  datatype SenderPc =
    | InsertCommand                   // about to lock task_commands
    | EnqueueTask                     // about to lock task_queue
    | PurgeLost(ids: set<string>)     // holds task_queue, about to lock task_commands
    | LookUp                          // about to lock connections
    | SendLive(conn: nat)             // holds connections, waits for room in a write channel
    | SendDone

  /** One `send_task` call that got past `extract_task_id`. `enqueuedAt` records the instant of its enqueue. */
  datatype Sender = Sender(
    node: string, msg: SapientMessage, taskId: string, command: Option<string>, pc: SenderPc, enqueuedAt: Option<nat>)

  datatype AlertPc =
    | AlertLookUp                     // about to lock connections
    | AlertSend(conn: nat)            // holds connections, waits for room in a write channel
    | AlertDone(found: bool)          // returned; the node was, or was not, connected

  /** One `send_alert_ack` call. */
  datatype AlertCall = AlertCall(node: string, alertId: string, pc: AlertPc)

  datatype HandlerPc =
    | Reading
    | Publish(msg: SapientMessage)                       // about to lock connections
    | SendAck(msg: SapientMessage)                       // waits for room in its own write channel
    | DrainQueue(msg: SapientMessage)                    // about to lock task_queue
    | PurgeExpired(msg: SapientMessage, ids: set<string>) // holds task_queue, about to lock task_commands
    | Replay(msg: SapientMessage, rest: Queue)           // waits for room in its own write channel
    | Route(msg: SapientMessage)
    | UpsertNode(node: string, update: SapientUpdate)
    | Dequeue(node: string, taskId: string, status: TaskAckStatus)      // about to lock task_queue
    | TakeCommand(node: string, taskId: string, status: TaskAckStatus)  // about to lock task_commands
    | Emit(update: SapientUpdate)                        // waits for room in the update channel
    | LeaveConnections                                   // about to lock connections
    | LeaveRegistry
    | EmitGone                                           // waits for room in the update channel
    | Closed

  /** One `run_connection`. `snapshot`, taken at the drain of instant `drainedAt`, is what it replays;
      `emitted` are its own updates, `heard` every message it has read and `verdicts` whether each was admitted
      when it was routed. */
  datatype Handler = Handler(
    registered: Option<string>, pc: HandlerPc, channel: Channel,
    snapshot: Queue, drainedAt: nat, emitted: seq<SapientUpdate>, heard: seq<SapientMessage>, verdicts: seq<bool>)

  const FRESH_HANDLER := Handler(None, Reading, Channel([], 0, true), [], 0, [], [], [])

  datatype Thread = SenderThread(i: nat) | HandlerThread(c: nat) | AlertThread(k: nat)

  /** What every thread shares, after `BridgeInner`. `purged` records the task id and command of every
      correlation removed with an evicted or expired task; `connectionsOwner` is the call waiting for
      channel room with that lock held. */
  datatype Inner = Inner(
    now: nat,
    queues: Queues, queueOwner: Option<Thread>,
    commands: map<string, string>, purged: set<(string, string)>,
    connections: map<string, nat>, connectionsOwner: Option<Thread>,
    registry: Registry.Nodes,
    updates: seq<SapientUpdate>, unread: nat)

  datatype State = State(inner: Inner, senders: seq<Sender>, handlers: seq<Handler>, alerts: seq<AlertCall>)

  const START := State(Inner(0, map[], None, map[], {}, map[], None, map[], [], 0), [], [], [])

  datatype Action =
    | Elapse(d: nat)
    | CallSendTask(node: string, msg: SapientMessage, command: Option<string>)
    | CallAlertAck(node: string, alertId: string)
    | Accept
    | SenderStep(i: nat)
    | AlertStep(k: nat)
    | Receive(c: nat, msg: SapientMessage)
    | Hangup(c: nat)
    | HandlerStep(c: nat, admitted: bool)
    | WriterStep(c: nat)
    | WriterFail(c: nat)
    | Consume
    | WatchdogRemove(node: string)

  /** Commands removed with the ids of evicted or expired tasks. */
  function Purge(b: Inner, ids: set<string>): (r: Inner)
    ensures r == b.(commands := r.commands, purged := r.purged)
  {
    b.(commands := b.commands - ids,
       purged := b.purged + (set id | id in ids && id in b.commands :: (id, b.commands[id])))
  }

  // ---- send_task ----

  /** Ids lost when the task is enqueued: everything expired, then at most one eviction. */
  function LostByEnqueue(cfg: Config, b: Inner, node: string): set<string> {
    ExpiredIds(b.queues, b.now) +
    (match EvictedBy(AfterDrain(b.queues, b.now), node, cfg.maxDepth) case Some(id) => {id} case None => {})
  }

  function QueuesAfterEnqueue(cfg: Config, b: Inner, t: Sender): Queues {
    AfterEnqueue(AfterDrain(b.queues, b.now), t.node, QueuedTask(t.msg, t.taskId, b.now, cfg.ttl), cfg.maxDepth)
  }

  /** The sender's next step, short of the send into a write channel, needs no lock that is held. */
  predicate SenderReady(b: Inner, t: Sender) {
    match t.pc
    case InsertCommand => true
    case EnqueueTask => b.queueOwner.None?
    case PurgeLost(_) => true
    case LookUp => b.connectionsOwner.None?
    case _ => false
  }

  function SenderMove(cfg: Config, b: Inner, i: nat, t: Sender): (Inner, SenderPc)
    requires SenderReady(b, t)
  {
    match t.pc
    case InsertCommand =>
      (if t.command.Some? then b.(commands := b.commands[t.taskId := t.command.value]) else b, EnqueueTask)
    case EnqueueTask =>
      var lost, b' := LostByEnqueue(cfg, b, t.node), b.(queues := QueuesAfterEnqueue(cfg, b, t));
      if lost == {} then (b', LookUp) else (b'.(queueOwner := Some(SenderThread(i))), PurgeLost(lost))
    case PurgeLost(ids) => (Purge(b, ids).(queueOwner := None), LookUp)
    case LookUp =>
      if t.node in b.connections then (b.(connectionsOwner := Some(SenderThread(i))), SendLive(b.connections[t.node]))
      else (b, SendDone)
  }

  // ---- run_connection ----

  function RegistrationAck(cfg: Config, node: string): SapientMessage {
    SapientMessage(Some(cfg.nodeId), Some(node), Some(ContentRegistrationAck))
  }

  predicate IsRegistration(m: SapientMessage) { m.content.Some? && m.content.value.ContentRegistration? }

  /** A message has been read: the first Registration of the connection publishes its sender first. */
  function Received(h: Handler, msg: SapientMessage): Handler {
    if IsRegistration(msg) && h.registered.None?
    then h.(registered := Some(msg.Node()), pc := Publish(msg), heard := h.heard + [msg])
    else h.(pc := Route(msg), heard := h.heard + [msg])
  }

  function PcAfterRoute(r: Result<SapientUpdate, SapientError>): HandlerPc {
    match r
    case Err(_) => Reading
    case Ok(u) =>
      match u
      case Registered(node, _) => UpsertNode(node, u)
      case StatusUpdated(node, _, _) => UpsertNode(node, u)
      case Detected(node, _) => UpsertNode(node, u)
      case TaskAcknowledged(node, taskId, _, status) => Dequeue(node, taskId, status)
      case _ => Emit(u)
  }

  function CapabilityOf(u: SapientUpdate): Option<CapabilityAdvertisement> {
    match u
    case Registered(_, adv) => Some(adv)
    case StatusUpdated(_, _, delta) => delta
    case _ => None
  }

  function TakenCommand(b: Inner, id: string): Option<string> {
    if id in b.commands then Some(b.commands[id]) else None
  }

  function NodeOf(h: Handler): string { if h.registered.Some? then h.registered.value else "" }

  predicate HandlerReady(b: Inner, h: Handler) {
    match h.pc
    case Reading => false
    case Publish(_) => b.connectionsOwner.None?
    case SendAck(_) => h.channel.CanSend()
    case DrainQueue(_) => b.queueOwner.None?
    case PurgeExpired(_, _) => true
    case Replay(_, rest) => rest == [] || h.channel.CanSend()
    case Route(_) => true
    case UpsertNode(_, _) => true
    case Dequeue(_, _, _) => b.queueOwner.None?
    case TakeCommand(_, _, _) => true
    case Emit(_) => b.unread < UPDATE_CHANNEL_DEPTH
    case LeaveConnections => b.connectionsOwner.None?
    case LeaveRegistry => true
    case EmitGone => b.unread < UPDATE_CHANNEL_DEPTH
    case Closed => false
  }

  function Emitting(b: Inner, h: Handler, u: SapientUpdate, pc: HandlerPc): (Inner, Handler) {
    (b.(updates := b.updates + [u], unread := b.unread + 1), h.(pc := pc, emitted := h.emitted + [u]))
  }

  function HandlerMove(cfg: Config, b: Inner, c: nat, h: Handler, admitted: bool): (Inner, Handler)
    requires HandlerReady(b, h)
  {
    match h.pc
    case Publish(msg) => (b.(connections := b.connections[NodeOf(h) := c]), h.(pc := SendAck(msg)))
    case SendAck(msg) =>
      (b, h.(pc := DrainQueue(msg), channel := h.channel.Sent(Offer(FromAck, RegistrationAck(cfg, NodeOf(h))))))
    case DrainQueue(msg) =>
      var expired, b' := ExpiredIds(b.queues, b.now), b.(queues := AfterDrain(b.queues, b.now));
      if expired == {} then
        var pending := PendingOf(b'.queues, NodeOf(h));
        (b', h.(pc := Replay(msg, pending), snapshot := pending, drainedAt := b.now))
      else (b'.(queueOwner := Some(HandlerThread(c))), h.(pc := PurgeExpired(msg, expired), drainedAt := b.now))
    case PurgeExpired(msg, ids) =>
      var pending := PendingOf(b.queues, NodeOf(h));
      (Purge(b, ids).(queueOwner := None), h.(pc := Replay(msg, pending), snapshot := pending))
    case Replay(msg, rest) =>
      if rest == [] then (b, h.(pc := Route(msg)))
      else (b, h.(pc := Replay(msg, rest[1..]), channel := h.channel.Sent(Offer(FromReplay, rest[0].msg))))
    case Route(msg) =>
      var sensor := Registry.PositionIn(b.registry, msg.Node());
      (b, h.(pc := PcAfterRoute(RouteMessage(cfg.geodesy, msg, sensor, admitted)), verdicts := h.verdicts + [admitted]))
    case UpsertNode(n, u) =>
      (b.(registry := Registry.Upserted(b.registry, n, CapabilityOf(u), None, b.now)), h.(pc := Emit(u)))
    case Dequeue(n, id, status) => (b.(queues := AfterAck(b.queues, n, id)), h.(pc := TakeCommand(n, id, status)))
    case TakeCommand(n, id, status) =>
      (b.(commands := b.commands - {id}), h.(pc := Emit(TaskAcknowledged(n, id, TakenCommand(b, id), status))))
    case Emit(u) => Emitting(b, h, u, Reading)
    case LeaveConnections => (b.(connections := b.connections - {NodeOf(h)}), h.(pc := LeaveRegistry))
    case LeaveRegistry => (b.(registry := b.registry - {NodeOf(h)}), h.(pc := EmitGone))
    case EmitGone => Emitting(b, h, NodeDisconnected(NodeOf(h)), Closed)
  }

  // ---- all steps ----

  predicate SenderEnabled(s: State, i: nat) {
    i < |s.senders| &&
    if s.senders[i].pc.SendLive?
    then s.senders[i].pc.conn < |s.handlers| && s.handlers[s.senders[i].pc.conn].channel.CanSend()
    else SenderReady(s.inner, s.senders[i])
  }

  predicate AlertEnabled(s: State, k: nat) {
    k < |s.alerts| &&
    match s.alerts[k].pc
    case AlertLookUp => s.inner.connectionsOwner.None?
    case AlertSend(c) => c < |s.handlers| && s.handlers[c].channel.CanSend()
    case AlertDone(_) => false
  }

  predicate Enabled(s: State, a: Action) {
    match a
    case Elapse(_) => true
    case CallSendTask(_, _, _) => true
    case CallAlertAck(_, _) => true
    case Accept => true
    case SenderStep(i) => SenderEnabled(s, i)
    case AlertStep(k) => AlertEnabled(s, k)
    case Receive(c, _) => c < |s.handlers| && s.handlers[c].pc.Reading?
    case Hangup(c) => c < |s.handlers| && s.handlers[c].pc.Reading?
    case HandlerStep(c, _) => c < |s.handlers| && HandlerReady(s.inner, s.handlers[c])
    case WriterStep(c) => c < |s.handlers| && s.handlers[c].channel.open && s.handlers[c].channel.buffered > 0
    case WriterFail(c) => c < |s.handlers| && s.handlers[c].channel.open
    case Consume => s.inner.unread > 0
    case WatchdogRemove(_) => true
  }

  function SenderApply(cfg: Config, s: State, i: nat): State
    requires SenderEnabled(s, i)
  {
    var t := s.senders[i];
    if t.pc.SendLive? then
      var c := t.pc.conn;
      var h := s.handlers[c];
      s.(inner := s.inner.(connectionsOwner := None), senders := s.senders[i := t.(pc := SendDone)],
         handlers := s.handlers[c := h.(channel := h.channel.Sent(Offer(FromSender(i), t.msg)))])
    else
      var (b, pc) := SenderMove(cfg, s.inner, i, t);
      s.(inner := b, senders := s.senders[i := t.(pc := pc, enqueuedAt := StampAfter(s.inner, t))])
  }

  function StampAfter(b: Inner, t: Sender): Option<nat> { if t.pc.EnqueueTask? then Some(b.now) else t.enqueuedAt }

  // ---- send_alert_ack ----

  function AlertAck(cfg: Config, t: AlertCall): SapientMessage {
    SapientMessage(Some(cfg.nodeId), Some(t.node), Some(ContentAlertAck(t.alertId)))
  }

  /** Unlike a task, an alert acknowledgement is sent now or, to a node that is not connected, refused. */
  function AlertApply(cfg: Config, s: State, k: nat): State
    requires AlertEnabled(s, k)
  {
    var t := s.alerts[k];
    match t.pc
    case AlertLookUp =>
      if t.node in s.inner.connections then
        s.(inner := s.inner.(connectionsOwner := Some(AlertThread(k))),
           alerts := s.alerts[k := t.(pc := AlertSend(s.inner.connections[t.node]))])
      else s.(alerts := s.alerts[k := t.(pc := AlertDone(false))])
    case AlertSend(c) =>
      var h := s.handlers[c];
      s.(inner := s.inner.(connectionsOwner := None), alerts := s.alerts[k := t.(pc := AlertDone(true))],
         handlers := s.handlers[c := h.(channel := h.channel.Sent(Offer(FromAlert(k), AlertAck(cfg, t))))])
  }

  function HandlerApply(cfg: Config, s: State, c: nat, admitted: bool): State
    requires c < |s.handlers| && HandlerReady(s.inner, s.handlers[c])
  {
    var (b, h) := HandlerMove(cfg, s.inner, c, s.handlers[c], admitted);
    s.(inner := b, handlers := s.handlers[c := h])
  }

  function Apply(cfg: Config, s: State, a: Action): State
    requires Enabled(s, a)
  {
    match a
    case Elapse(d) => s.(inner := s.inner.(now := s.inner.now + d))
    case CallSendTask(node, msg, command) =>
      (match ExtractTaskId(msg)
       case Err(_) => s
       case Ok(id) => s.(senders := s.senders + [Sender(node, msg, id, command, InsertCommand, None)]))
    case CallAlertAck(node, alertId) => s.(alerts := s.alerts + [AlertCall(node, alertId, AlertLookUp)])
    case Accept => s.(handlers := s.handlers + [FRESH_HANDLER])
    case SenderStep(i) => SenderApply(cfg, s, i)
    case AlertStep(k) => AlertApply(cfg, s, k)
    case Receive(c, msg) => s.(handlers := s.handlers[c := Received(s.handlers[c], msg)])
    case Hangup(c) =>
      var h := s.handlers[c];
      s.(handlers := s.handlers[c := h.(pc := if h.registered.Some? then LeaveConnections else Closed)])
    case HandlerStep(c, admitted) => HandlerApply(cfg, s, c, admitted)
    case WriterStep(c) =>
      var h := s.handlers[c];
      s.(handlers := s.handlers[c := h.(channel := h.channel.(buffered := h.channel.buffered - 1))])
    case WriterFail(c) =>
      var h := s.handlers[c];
      s.(handlers := s.handlers[c := h.(channel := h.channel.(buffered := 0, open := false))])
    case Consume => s.(inner := s.inner.(unread := s.inner.unread - 1))
    case WatchdogRemove(n) => s.(inner := s.inner.(registry := s.inner.registry - {n}))
  }

  ghost predicate Run(cfg: Config, s: State, actions: seq<Action>, t: State)
    decreases |actions|
  {
    if actions == [] then s == t
    else Enabled(s, actions[0]) && Run(cfg, Apply(cfg, s, actions[0]), actions[1..], t)
  }
}
