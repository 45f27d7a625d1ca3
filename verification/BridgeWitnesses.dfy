// Complete runs, from the start, of what the bridge's documentation does not lead one to expect.

module BridgeWitnesses {
  import opened Base
  import opened Sapient
  import opened TaskQueues
  import opened Bridge
  import opened BridgeTasks
  import BridgeAcks
  import BridgePresence
  import BridgeTraces
  import Registry
  import Transforms

  const HELLO := SapientMessage(Some("a"), None, Some(ContentRegistration(Registration([]))))

  const TASK := SapientMessage(None, None, Some(ContentTask(Some("t"), "")))

  /** One more step at the end of a run. */
  lemma {:induction false} Then(cfg: Config, s: State, actions: seq<Action>, m: State, a: Action)
    requires Run(cfg, s, actions, m) && Enabled(m, a)
    ensures Run(cfg, s, actions + [a], Apply(cfg, m, a))
  {
    hide Apply, Enabled;
    var t := Apply(cfg, m, a);
    assert Run(cfg, t, [], t);
    assert [a][1..] == [];
    assert Run(cfg, m, [a], t);
    BridgeAcks.RunJoins(cfg, s, actions, m, [a], t);
  }

  // ---- a task before its RegistrationAck ----

  function Registering(h: Handler, pc: HandlerPc): Handler {
    h.(registered := Some("a"), pc := pc, heard := [HELLO])
  }

  function Published(handlers: seq<Handler>): State {
    START.(inner := START.inner.(connections := map["a" := 0]), handlers := handlers)
  }

  /** A first connection registers as node "a" and is published. */
  lemma ReachPublished(cfg: Config) returns (actions: seq<Action>)
    ensures Run(cfg, START, actions, Published([Registering(FRESH_HANDLER, SendAck(HELLO))]))
  {
    hide Run;
    var s1 := START.(handlers := [FRESH_HANDLER]);
    var s2 := START.(handlers := [Registering(FRESH_HANDLER, Publish(HELLO))]);
    assert Run(cfg, START, [], START) by { Here(cfg, START); }
    Then(cfg, START, [], START, Accept);
    assert Apply(cfg, START, Accept) == s1;
    Then(cfg, START, [] + [Accept], s1, Receive(0, HELLO));
    assert Received(FRESH_HANDLER, HELLO) == s2.handlers[0];
    assert Apply(cfg, s1, Receive(0, HELLO)).handlers == s2.handlers;
    Then(cfg, START, [] + [Accept] + [Receive(0, HELLO)], s2, HandlerStep(0, true));
    assert Apply(cfg, s2, HandlerStep(0, true)).handlers == [Registering(FRESH_HANDLER, SendAck(HELLO))];
    assert Apply(cfg, s2, HandlerStep(0, true)).inner.connections == map["a" := 0];
    actions := [] + [Accept] + [Receive(0, HELLO)] + [HandlerStep(0, true)];
  }

  lemma {:induction false} Here(cfg: Config, s: State)
    ensures Run(cfg, s, [], s)
  {
  }

  function Queueing(s: State, command: Option<string>, pc: SenderPc): State {
    s.(senders := [Sender("a", TASK, "t", command, pc, if pc.LookUp? then Some(0) else None)],
       inner := if pc.InsertCommand? || command.None? then s.inner
                else s.inner.(commands := map["t" := command.value]))
  }

  function WithTaskQueued(cfg: Config, s: State, command: Option<string>): State {
    var q := Queueing(s, command, LookUp);
    q.(inner := q.inner.(queues := map["a" := [QueuedTask(TASK, "t", 0, cfg.ttl)]]))
  }

  /** On a bridge that never had a task, a `send_task` for node "a" gets as far as its lookup. */
  lemma ReachQueued(cfg: Config, actions: seq<Action>, s: State, command: Option<string>) returns (more: seq<Action>)
    requires Run(cfg, START, actions, s)
    requires s.senders == [] && s.inner.queues == map[] && s.inner.commands == map[] && s.inner.now == 0 &&
      s.inner.queueOwner.None?
    ensures Run(cfg, START, more, WithTaskQueued(cfg, s, command))
  {
    hide Run;
    var call := CallSendTask("a", TASK, command);
    var s1, s2 := Queueing(s, command, InsertCommand), Queueing(s, command, EnqueueTask);
    Then(cfg, START, actions, s, call);
    assert Apply(cfg, s, call) == s1;
    Then(cfg, START, actions + [call], s1, SenderStep(0));
    assert Apply(cfg, s1, SenderStep(0)) == s2;
    Then(cfg, START, actions + [call] + [SenderStep(0)], s2, SenderStep(0));
    FirstEnqueue(cfg, s2);
    more := actions + [call] + [SenderStep(0)] + [SenderStep(0)];
  }

  lemma FirstEnqueue(cfg: Config, s: State)
    requires |s.senders| == 1 && s.senders[0].pc.EnqueueTask? && s.inner.queueOwner.None?
    requires s.inner.queues == map[] && s.inner.now == 0
    ensures var t := s.senders[0];
      Apply(cfg, s, SenderStep(0)) == s.(
        senders := [t.(pc := LookUp, enqueuedAt := Some(0))],
        inner := s.inner.(queues := map[t.node := [QueuedTask(t.msg, t.taskId, 0, cfg.ttl)]]))
  {
    var t := s.senders[0];
    var task := QueuedTask(t.msg, t.taskId, 0, cfg.ttl);
    assert AfterDrain(s.inner.queues, s.inner.now) == map[];
    assert ExpiredIds(s.inner.queues, s.inner.now) == {};
    assert LostByEnqueue(cfg, s.inner, t.node) == {};
    assert Pushed([], task, cfg.maxDepth) == [task];
    assert QueuesAfterEnqueue(cfg, s.inner, t) == map[t.node := [QueuedTask(t.msg, t.taskId, 0, cfg.ttl)]];
    assert s.senders[0 := t.(pc := LookUp, enqueuedAt := Some(0))] == [t.(pc := LookUp, enqueuedAt := Some(0))];
  }

  /** The first thing queued on a connection can be a task: a reachable state in which the acknowledgement
      still waits behind it. */
  lemma TaskOvertakesAck(cfg: Config) returns (actions: seq<Action>, t: State)
    ensures Run(cfg, START, actions, t) && |t.handlers| == 1
    ensures t.handlers[0].pc == SendAck(HELLO)
    ensures t.handlers[0].channel.offers == [Offer(FromSender(0), TASK)]
  {
    hide Run;
    var before := ReachPublished(cfg);
    var s := Published([Registering(FRESH_HANDLER, SendAck(HELLO))]);
    var first := ReachQueued(cfg, before, s, None);
    t := BridgeTraces.LiveTaskOvertakesAck(cfg, WithTaskQueued(cfg, s, None), 0, 0);
    BridgeAcks.RunJoins(cfg, START, first, WithTaskQueued(cfg, s, None), [SenderStep(0), SenderStep(0)], t);
    actions := first + [SenderStep(0), SenderStep(0)];
  }

  /** ... and it can be an alert acknowledgement, with no `send_task` at all: a reachable state in which the
      RegistrationAck has come second. */
  lemma AlertOvertakesAck(cfg: Config) returns (actions: seq<Action>, t: State)
    ensures Run(cfg, START, actions, t) && t.senders == [] && |t.handlers| == 1
    ensures t.handlers[0].channel.offers == [
      Offer(FromAlert(0), AlertAck(cfg, AlertCall("a", "x", AlertLookUp))), Offer(FromAck, RegistrationAck(cfg, "a"))]
  {
    hide Run, AlertAck, RegistrationAck;
    var before := ReachPublished(cfg);
    var s := Published([Registering(FRESH_HANDLER, SendAck(HELLO))]);
    var call := CallAlertAck("a", "x");
    var s1 := Apply(cfg, s, call);
    Then(cfg, START, before, s, call);
    assert s1.alerts == [AlertCall("a", "x", AlertLookUp)];
    var s2 := Apply(cfg, s1, AlertStep(0));
    Then(cfg, START, before + [call], s1, AlertStep(0));
    assert s2.alerts[0].pc == AlertSend(0);
    AlertAckIgnoresPc(cfg, s1.alerts[0], s2.alerts[0]);
    var s3 := Apply(cfg, s2, AlertStep(0));
    Then(cfg, START, before + [call] + [AlertStep(0)], s2, AlertStep(0));
    assert s3.handlers[0].channel.offers == [Offer(FromAlert(0), AlertAck(cfg, s1.alerts[0]))];
    t := Apply(cfg, s3, HandlerStep(0, true));
    Then(cfg, START, before + [call] + [AlertStep(0)] + [AlertStep(0)], s3, HandlerStep(0, true));
    actions := before + [call] + [AlertStep(0)] + [AlertStep(0)] + [HandlerStep(0, true)];
  }

  lemma AlertAckIgnoresPc(cfg: Config, t: AlertCall, u: AlertCall)
    requires u == t.(pc := u.pc)
    ensures AlertAck(cfg, t) == AlertAck(cfg, u)
  {
  }

  // ---- a foreign acknowledgement ----

  /** From the start: node "b" acknowledges the task queued for node "a", and is delivered its command, while
      the task stays queued without one. */
  lemma ForeignNodeGetsCommand(cfg: Config) returns (actions: seq<Action>, t: State)
    ensures Run(cfg, START, actions, t) && |t.handlers| == 1
    ensures t.handlers[0].pc == Emit(TaskAcknowledged("b", "t", Some("k"), AckAccepted))
    ensures Queued(t.inner.queues, "a", "t") && "t" !in t.inner.commands
  {
    hide Run;
    Here(cfg, START);
    Then(cfg, START, [], START, Accept);
    var s := START.(handlers := [FRESH_HANDLER]);
    assert Apply(cfg, START, Accept) == s;
    var first := ReachQueued(cfg, [] + [Accept], s, Some("k"));
    var mid := WithTaskQueued(cfg, s, Some("k"));
    assert mid.inner.queues["a"][0].taskId == "t";
    var rest;
    rest, t := BridgeAcks.ForeignAckTakesCommand(cfg, mid, 0, "a", "b", "t");
    BridgeAcks.RunJoins(cfg, START, first, mid, rest, t);
    actions := first + rest;
  }

  // ---- overlapping connections ----

  lemma AckAndReplay(cfg: Config, actions: seq<Action>, s: State, c: nat) returns (more: seq<Action>, t: State)
    requires Run(cfg, START, actions, s) && c < |s.handlers| && s.handlers[c].pc == SendAck(HELLO)
    requires s.handlers[c].channel.CanSend() && s.inner.queues == map[] && s.inner.queueOwner.None?
    ensures Run(cfg, START, more, t) && |t.handlers| == |s.handlers| &&
      t == s.(handlers := s.handlers[c := t.handlers[c]])
    ensures t.handlers[c].pc == Route(HELLO) && t.handlers[c].registered == s.handlers[c].registered
  {
    hide Run;
    var a := HandlerStep(c, true);
    var s1 := Apply(cfg, s, a);
    Then(cfg, START, actions, s, a);
    assert ExpiredIds(map[], s.inner.now) == {} && AfterDrain(map[], s.inner.now) == map[];
    assert s1.inner == s.inner;
    var s2 := Apply(cfg, s1, a);
    Then(cfg, START, actions + [a], s1, a);
    assert s2.handlers[c].pc == Replay(HELLO, []) && s2.inner == s.inner;
    t := Apply(cfg, s2, a);
    Then(cfg, START, actions + [a] + [a], s2, a);
    more := actions + [a] + [a] + [a];
  }

  lemma RouteAndReport(cfg: Config, actions: seq<Action>, s: State, c: nat) returns (more: seq<Action>, t: State)
    requires Run(cfg, START, actions, s) && c < |s.handlers| && s.handlers[c].pc == Route(HELLO)
    requires s.inner.unread < UPDATE_CHANNEL_DEPTH
    ensures Run(cfg, START, more, t) && |t.handlers| == |s.handlers| && t.handlers == s.handlers[c := t.handlers[c]]
    ensures t.handlers[c].pc.Reading? && t.handlers[c].registered == s.handlers[c].registered
    ensures t.inner.connections == s.inner.connections && t.inner.connectionsOwner == s.inner.connectionsOwner
  {
    hide Run, Transforms.FromRegistration, Registry.Upserted;
    var a := HandlerStep(c, true);
    var s1 := Apply(cfg, s, a);
    Then(cfg, START, actions, s, a);
    assert s1.handlers[c].pc.UpsertNode? && s1.inner == s.inner;
    var s2 := Apply(cfg, s1, a);
    Then(cfg, START, actions + [a], s1, a);
    assert s2.handlers[c].pc.Emit? && s2.inner.unread == s.inner.unread;
    t := Apply(cfg, s2, a);
    Then(cfg, START, actions + [a] + [a], s2, a);
    more := actions + [a] + [a] + [a];
  }

  /** A second connection of node "a" publishes itself. */
  lemma SecondComes(cfg: Config, actions: seq<Action>, s: State) returns (more: seq<Action>, t: State)
    requires Run(cfg, START, actions, s) && |s.handlers| == 1 && s.inner.connectionsOwner.None?
    ensures Run(cfg, START, more, t) && |t.handlers| == 2 && t.handlers[0] == s.handlers[0]
    ensures BridgePresence.Serves(t.handlers[1], "a") && t.inner.connectionsOwner.None?
    ensures t.inner.connections == s.inner.connections["a" := 1]
  {
    hide Run;
    var s1 := Apply(cfg, s, Accept);
    Then(cfg, START, actions, s, Accept);
    var s2 := Apply(cfg, s1, Receive(1, HELLO));
    Then(cfg, START, actions + [Accept], s1, Receive(1, HELLO));
    assert s2.handlers[1].pc == Publish(HELLO) && s2.handlers[1].registered == Some("a");
    t := Apply(cfg, s2, HandlerStep(1, true));
    Then(cfg, START, actions + [Accept] + [Receive(1, HELLO)], s2, HandlerStep(1, true));
    more := actions + [Accept] + [Receive(1, HELLO)] + [HandlerStep(1, true)];
  }

  /** The first connection hangs up and takes out the sender of the second. */
  lemma FirstLeaves(cfg: Config, actions: seq<Action>, s: State) returns (more: seq<Action>, t: State)
    requires Run(cfg, START, actions, s) && |s.handlers| == 2 && s.inner.connectionsOwner.None?
    requires s.handlers[0].pc.Reading? && s.handlers[0].registered == Some("a")
    ensures Run(cfg, START, more, t) && |t.handlers| == 2 && t.handlers[1] == s.handlers[1]
    ensures t.inner.connections == s.inner.connections - {"a"}
  {
    hide Run;
    var s1 := Apply(cfg, s, Hangup(0));
    Then(cfg, START, actions, s, Hangup(0));
    t := Apply(cfg, s1, HandlerStep(0, true));
    Then(cfg, START, actions + [Hangup(0)], s1, HandlerStep(0, true));
    more := actions + [Hangup(0)] + [HandlerStep(0, true)];
  }

  /** From the start: a node that is connected and has no published sender. */
  lemma OverlapLosesSender(cfg: Config) returns (actions: seq<Action>, t: State)
    ensures Run(cfg, START, actions, t)
    ensures BridgePresence.ServesIn(t, 1, "a") && "a" !in t.inner.connections
  {
    hide Run;
    actions := ReachPublished(cfg);
    t := Published([Registering(FRESH_HANDLER, SendAck(HELLO))]);
    actions, t := AckAndReplay(cfg, actions, t, 0);
    actions, t := RouteAndReport(cfg, actions, t, 0);
    actions, t := SecondComes(cfg, actions, t);
    actions, t := FirstLeaves(cfg, actions, t);
  }
}
