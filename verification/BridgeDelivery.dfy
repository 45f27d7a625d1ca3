// Every command handed to `send_task` is in exactly one place: not inserted yet, in the map, in a handler's
// hand, delivered, or purged with its lost task. So it is delivered at most once.

module BridgeDelivery {
  import opened Base
  import opened Sapient
  import opened TaskQueues
  import opened Bridge
  import opened BridgeTasks
  import Routing

  // ---- where a command can be ----

  predicate Carries(u: SapientUpdate, id: string, cmd: string) {
    u.TaskAcknowledged? && u.taskId == id && u.commandId == Some(cmd)
  }

  predicate IsOwner(t: Sender, id: string, cmd: string) { t.taskId == id && t.command == Some(cmd) }

  function OwnerBit(id: string, cmd: string): Sender -> nat {
    (t: Sender) => if IsOwner(t, id, cmd) then 1 else 0
  }

  function WaitingBit(id: string, cmd: string): Sender -> nat {
    (t: Sender) => if IsOwner(t, id, cmd) && t.pc.InsertCommand? then 1 else 0
  }

  function HandBit(id: string, cmd: string): Handler -> nat {
    (h: Handler) => if h.pc.Emit? && Carries(h.pc.update, id, cmd) then 1 else 0
  }

  function DeliveredBit(id: string, cmd: string): SapientUpdate -> nat {
    (u: SapientUpdate) => if Carries(u, id, cmd) then 1 else 0
  }

  function Bit(b: bool): nat { if b then 1 else 0 }

  predicate InMap(b: Inner, id: string, cmd: string) { id in b.commands && b.commands[id] == cmd }

  /** `send_task` calls that carry this task id and command. */
  function GivenCommands(s: State, id: string, cmd: string): nat { Sum(OwnerBit(id, cmd), s.senders) }

  function NotInserted(s: State, id: string, cmd: string): nat { Sum(WaitingBit(id, cmd), s.senders) }

  function InHand(s: State, id: string, cmd: string): nat { Sum(HandBit(id, cmd), s.handlers) }

  function Delivered(s: State, id: string, cmd: string): nat { Sum(DeliveredBit(id, cmd), s.inner.updates) }

  ghost predicate Conserved(s: State, id: string, cmd: string) {
    NotInserted(s, id, cmd) + Bit(InMap(s.inner, id, cmd)) + InHand(s, id, cmd) + Delivered(s, id, cmd)
      + Bit((id, cmd) in s.inner.purged) == GivenCommands(s, id, cmd)
  }

  /** Only a looked-up acknowledgement carries a command. */
  predicate PlainUpdate(h: Handler) {
    h.pc.UpsertNode? ==> !h.pc.update.TaskAcknowledged? && !h.pc.update.NodeDisconnected?
  }

  ghost predicate PlainUpdates(s: State) { forall c :: 0 <= c < |s.handlers| ==> PlainUpdate(s.handlers[c]) }

  // ---- unique ids make each command's owner unique ----

  lemma {:induction false} SumBitsPositive(ts: seq<Sender>, id: string, cmd: string)
    ensures Sum(OwnerBit(id, cmd), ts) > 0 <==> exists i :: 0 <= i < |ts| && IsOwner(ts[i], id, cmd)
  {
    if ts != [] {
      SumBitsPositive(ts[1..], id, cmd);
      if i :| 0 <= i < |ts[1..]| && IsOwner(ts[1..][i], id, cmd) { assert IsOwner(ts[i + 1], id, cmd); }
      if i :| 0 <= i < |ts| && IsOwner(ts[i], id, cmd) && i > 0 { assert IsOwner(ts[1..][i - 1], id, cmd); }
    }
  }

  lemma {:induction false} OneOwner(ts: seq<Sender>, id: string, cmd: string)
    requires forall i, j :: 0 <= i < j < |ts| ==> ts[i].taskId != ts[j].taskId
    ensures Sum(OwnerBit(id, cmd), ts) <= 1
  {
    if ts != [] {
      OneOwner(ts[1..], id, cmd);
      SumBitsPositive(ts[1..], id, cmd);
    }
  }

  lemma GivenOnce(s: State, id: string, cmd: string)
    requires UniqueIds(s)
    ensures GivenCommands(s, id, cmd) <= 1
    ensures GivenCommands(s, id, cmd) == 1 <==> exists i :: 0 <= i < |s.senders| && IsOwner(s.senders[i], id, cmd)
  {
    OneOwner(s.senders, id, cmd);
    SumBitsPositive(s.senders, id, cmd);
  }

  // ---- the equation is kept ----

  lemma SenderSums(s: State, i: nat, t: Sender, id: string, cmd: string)
    requires i < |s.senders|
    ensures var s' := s.(senders := s.senders[i := t]);
      GivenCommands(s', id, cmd) ==
        GivenCommands(s, id, cmd) - Bit(IsOwner(s.senders[i], id, cmd)) + Bit(IsOwner(t, id, cmd)) &&
      NotInserted(s', id, cmd) == NotInserted(s, id, cmd)
        - Bit(IsOwner(s.senders[i], id, cmd) && s.senders[i].pc.InsertCommand?)
        + Bit(IsOwner(t, id, cmd) && t.pc.InsertCommand?) &&
      NotInserted(s, id, cmd) >= Bit(IsOwner(s.senders[i], id, cmd) && s.senders[i].pc.InsertCommand?)
  {
    SumUpdate(OwnerBit(id, cmd), s.senders, i, t);
    SumUpdate(WaitingBit(id, cmd), s.senders, i, t);
    hide Sum;
  }

  lemma HandlerSums(s: State, c: nat, h: Handler, id: string, cmd: string)
    requires c < |s.handlers|
    ensures Sum(HandBit(id, cmd), s.handlers[c := h]) == InHand(s, id, cmd)
      - Bit(s.handlers[c].pc.Emit? && Carries(s.handlers[c].pc.update, id, cmd))
      + Bit(h.pc.Emit? && Carries(h.pc.update, id, cmd))
    ensures InHand(s, id, cmd) >= Bit(s.handlers[c].pc.Emit? && Carries(s.handlers[c].pc.update, id, cmd))
  {
    SumUpdate(HandBit(id, cmd), s.handlers, c, h);
    hide Sum;
  }

  /** A task id in the map got there from its one sender, past its insert. */
  lemma MapHasOwner(s: State, id: string, cmd: string)
    requires UniqueIds(s) && Conserved(s, id, cmd) && InMap(s.inner, id, cmd)
    ensures exists i :: 0 <= i < |s.senders| && IsOwner(s.senders[i], id, cmd) && !s.senders[i].pc.InsertCommand?
  {
    GivenOnce(s, id, cmd);
    assert NotInserted(s, id, cmd) == 0;
    var i :| 0 <= i < |s.senders| && IsOwner(s.senders[i], id, cmd);
    SumUpdate(WaitingBit(id, cmd), s.senders, i, s.senders[i]);
  }

  /** Purging moves a command out of the map and changes no other place. */
  lemma PurgeMoves(b: Inner, ids: set<string>, id: string, cmd: string)
    requires InMap(b, id, cmd) ==> (id, cmd) !in b.purged
    ensures var b' := Purge(b, ids);
      Bit(InMap(b', id, cmd)) + Bit((id, cmd) in b'.purged) == Bit(InMap(b, id, cmd)) + Bit((id, cmd) in b.purged)
  {
  }

  /** The sender's step moves the command, if it is his, from his hand to the map; nobody else's entry for
      that task can be there to be overwritten. */
  lemma InsertMoves(cfg: Config, s: State, i: nat, id: string, cmd: string)
    requires SenderEnabled(s, i) && UniqueIds(s) && s.senders[i].pc.InsertCommand?
    requires forall x, y :: Conserved(s, x, y)
    ensures var t, b' := s.senders[i], SenderMove(cfg, s.inner, i, s.senders[i]).0;
      Bit(InMap(b', id, cmd)) == Bit(InMap(s.inner, id, cmd)) + Bit(IsOwner(t, id, cmd))
  {
    var t := s.senders[i];
    if id == t.taskId && id in s.inner.commands {
      var was := s.inner.commands[id];
      assert Conserved(s, id, was);
      MapHasOwner(s, id, was);
    }
    hide Conserved;
  }

  /** The bits a sender's step, short of a live send, clears for one command are set elsewhere. */
  lemma SenderMovesCommand(cfg: Config, s: State, i: nat, id: string, cmd: string)
    requires SenderEnabled(s, i) && UniqueIds(s) && !s.senders[i].pc.SendLive?
    requires forall x, y :: Conserved(s, x, y)
    ensures var t, (b', pc) := s.senders[i], SenderMove(cfg, s.inner, i, s.senders[i]);
      b'.updates == s.inner.updates && !pc.InsertCommand? &&
      Bit(InMap(b', id, cmd)) + Bit((id, cmd) in b'.purged)
        == Bit(InMap(s.inner, id, cmd)) + Bit((id, cmd) in s.inner.purged)
           + Bit(IsOwner(t, id, cmd) && t.pc.InsertCommand?)
  {
    var t := s.senders[i];
    if t.pc.InsertCommand? {
      InsertMoves(cfg, s, i, id, cmd);
    } else if t.pc.PurgeLost? {
      assert Conserved(s, id, cmd);
      GivenOnce(s, id, cmd);
      PurgeMoves(s.inner, t.pc.ids, id, cmd);
      hide Purge;
    }
    hide Conserved, UniqueIds, IsOwner, LostByEnqueue, QueuesAfterEnqueue;
  }

  lemma SenderConserves(cfg: Config, s: State, i: nat, id: string, cmd: string)
    requires SenderEnabled(s, i) && UniqueIds(s)
    requires forall x, y :: Conserved(s, x, y)
    ensures Conserved(SenderApply(cfg, s, i), id, cmd)
  {
    var t, s' := s.senders[i], SenderApply(cfg, s, i);
    assert Conserved(s, id, cmd);
    SenderSums(s, i, s'.senders[i], id, cmd);
    if t.pc.SendLive? {
      HandlerSums(s, t.pc.conn, s'.handlers[t.pc.conn], id, cmd);
    } else {
      SenderMovesCommand(cfg, s, i, id, cmd);
    }
    hide Sum, SenderMove, InMap, UniqueIds;
  }

  predicate CarriesNone(pc: HandlerPc) { pc.Emit? ==> !pc.update.TaskAcknowledged? }

  /** What a handler's step does to the map, the purge record, the updates and its own update. */
  lemma HandlerCommandEffect(cfg: Config, b: Inner, c: nat, h: Handler, admitted: bool)
    requires HandlerReady(b, h) && PlainUpdate(h)
    ensures var (b', h') := HandlerMove(cfg, b, c, h, admitted);
      PlainUpdate(h') &&
      match h.pc
      case Emit(u) => b' == b.(updates := b.updates + [u], unread := b.unread + 1) && h'.pc.Reading?
      case EmitGone =>
        b' == b.(updates := b.updates + [NodeDisconnected(NodeOf(h))], unread := b.unread + 1) && h'.pc.Closed?
      case PurgeExpired(_, ids) => b' == Purge(b, ids).(queueOwner := None) && h'.pc.Replay?
      case TakeCommand(n, id, st) =>
        b' == b.(commands := b.commands - {id}) && h'.pc == Emit(TaskAcknowledged(n, id, TakenCommand(b, id), st))
      case _ =>
        b'.commands == b.commands && b'.purged == b.purged && b'.updates == b.updates && CarriesNone(h'.pc)
  {
    hide ExpiredIds, AfterDrain, AfterAck, PendingOf, RegistrationAck, CapabilityOf, NodeOf, TakenCommand, Purge;
    hide PcAfterRoute, Routing.RouteMessage, Registry.Upserted, Registry.PositionIn;
    if h.pc.Route? {
      RouteFits(cfg, b, h, admitted);
    }
  }

  /** The bits a handler's step clears for the command of one task are set elsewhere. */
  lemma HandlerMovesCommand(cfg: Config, b: Inner, c: nat, h: Handler, admitted: bool, id: string, cmd: string)
    requires HandlerReady(b, h) && PlainUpdate(h)
    requires InMap(b, id, cmd) ==> (id, cmd) !in b.purged
    ensures var (b', h') := HandlerMove(cfg, b, c, h, admitted);
      Bit(InMap(b', id, cmd)) + Bit((id, cmd) in b'.purged) + Bit(h'.pc.Emit? && Carries(h'.pc.update, id, cmd))
        + Sum(DeliveredBit(id, cmd), b'.updates)
      == Bit(InMap(b, id, cmd)) + Bit((id, cmd) in b.purged) + Bit(h.pc.Emit? && Carries(h.pc.update, id, cmd))
        + Sum(DeliveredBit(id, cmd), b.updates)
  {
    HandlerCommandEffect(cfg, b, c, h, admitted);
    hide HandlerMove, HandlerReady;
    match h.pc
    case Emit(u) => SumPush(DeliveredBit(id, cmd), b.updates, u); hide Sum;
    case EmitGone => SumPush(DeliveredBit(id, cmd), b.updates, NodeDisconnected(NodeOf(h))); hide Sum;
    case PurgeExpired(_, ids) => PurgeMoves(b, ids, id, cmd); hide Sum, Purge;
    case _ => hide Sum;
  }

  lemma HandlerConserves(cfg: Config, s: State, c: nat, admitted: bool, id: string, cmd: string)
    requires c < |s.handlers| && HandlerReady(s.inner, s.handlers[c]) && PlainUpdate(s.handlers[c])
    requires UniqueIds(s) && Conserved(s, id, cmd)
    ensures Conserved(HandlerApply(cfg, s, c, admitted), id, cmd)
  {
    GivenOnce(s, id, cmd);
    HandlerMovesCommand(cfg, s.inner, c, s.handlers[c], admitted, id, cmd);
    var s' := HandlerApply(cfg, s, c, admitted);
    HandlerSums(s, c, s'.handlers[c], id, cmd);
    hide Sum, HandlerMove, HandlerReady, UniqueIds, InMap, PlainUpdate, Carries;
  }

  /** One handler changes, but neither holds nor delivers a command differently. */
  lemma QuietConserves(s: State, t: State, c: nat, id: string, cmd: string)
    requires Conserved(s, id, cmd) && c < |s.handlers| && |t.handlers| == |s.handlers|
    requires t.handlers == s.handlers[c := t.handlers[c]] && t.senders == s.senders
    requires s.handlers[c].pc.Emit? || t.handlers[c].pc.Emit? ==> t.handlers[c].pc == s.handlers[c].pc
    requires t.inner.commands == s.inner.commands && t.inner.purged == s.inner.purged &&
      t.inner.updates == s.inner.updates
    ensures Conserved(t, id, cmd)
  {
    HandlerSums(s, c, t.handlers[c], id, cmd);
    hide Sum, InMap;
  }

  lemma CallConserves(cfg: Config, s: State, a: Action, id: string, cmd: string)
    requires a.CallSendTask? && Conserved(s, id, cmd)
    ensures Conserved(Apply(cfg, s, a), id, cmd)
  {
    var t := Apply(cfg, s, a);
    hide Routing.ExtractTaskId, InMap;
    if |t.senders| > |s.senders| {
      var added := t.senders[|s.senders|];
      SumPush(OwnerBit(id, cmd), s.senders, added);
      SumPush(WaitingBit(id, cmd), s.senders, added);
      assert t.senders == s.senders + [added];
    }
    hide Sum;
  }

  /** Steps that touch no command. */
  lemma OtherConserves(cfg: Config, s: State, a: Action, id: string, cmd: string)
    requires Enabled(s, a) && !a.SenderStep? && !a.HandlerStep? && Conserved(s, id, cmd)
    ensures Conserved(Apply(cfg, s, a), id, cmd)
  {
    var t := Apply(cfg, s, a);
    hide Routing.ExtractTaskId, InMap, AlertAck;
    match a
    case CallSendTask(_, _, _) =>
      hide Conserved;
      CallConserves(cfg, s, a, id, cmd);
    case Accept =>
      SumPush(HandBit(id, cmd), s.handlers, t.handlers[|s.handlers|]);
      hide Sum;
    case AlertStep(k) =>
      if s.alerts[k].pc.AlertSend? { hide Conserved; QuietConserves(s, t, s.alerts[k].pc.conn, id, cmd); }
      hide Sum;
    case Receive(c, _) => hide Conserved; QuietConserves(s, t, c, id, cmd);
    case Hangup(c) => hide Conserved; QuietConserves(s, t, c, id, cmd);
    case WriterStep(c) => hide Conserved; QuietConserves(s, t, c, id, cmd);
    case WriterFail(c) => hide Conserved; QuietConserves(s, t, c, id, cmd);
    case _ =>
      hide Sum;
  }

  lemma PlainStep(cfg: Config, s: State, a: Action)
    requires Enabled(s, a) && PlainUpdates(s)
    ensures PlainUpdates(Apply(cfg, s, a))
  {
    hide SenderMove, Routing.ExtractTaskId;
    match a
    case HandlerStep(c, admitted) =>
      HandlerCommandEffect(cfg, s.inner, c, s.handlers[c], admitted);
      hide HandlerMove;
    case _ =>
  }

  ghost predicate AllConserved(s: State) { forall id, cmd :: Conserved(s, id, cmd) }

  lemma ConservedStep(cfg: Config, s: State, a: Action)
    requires Enabled(s, a) && PlainUpdates(s) && UniqueIds(s) && AllConserved(s)
    ensures AllConserved(Apply(cfg, s, a))
  {
    hide Apply, Enabled, UniqueIds, Conserved, PlainUpdate;
    forall id, cmd ensures Conserved(Apply(cfg, s, a), id, cmd) { ConservedStepAt(cfg, s, a, id, cmd); }
  }

  lemma ConservedStepAt(cfg: Config, s: State, a: Action, id: string, cmd: string)
    requires Enabled(s, a) && PlainUpdates(s) && UniqueIds(s) && AllConserved(s)
    ensures Conserved(Apply(cfg, s, a), id, cmd)
  {
    hide UniqueIds, Conserved;
    assert Conserved(s, id, cmd);
    match a
    case SenderStep(i) => SenderConserves(cfg, s, i, id, cmd);
    case HandlerStep(c, admitted) => HandlerConserves(cfg, s, c, admitted, id, cmd);
    case _ => OtherConserves(cfg, s, a, id, cmd);
  }

  lemma NothingGiven(id: string, cmd: string)
    ensures Conserved(START, id, cmd)
  {
  }

  lemma {:induction false} ConservationHolds(cfg: Config, s: State, actions: seq<Action>, t: State)
    requires PlainUpdates(s) && (UniqueIds(s) ==> AllConserved(s)) && Run(cfg, s, actions, t)
    ensures PlainUpdates(t) && (UniqueIds(t) ==> AllConserved(t))
    decreases |actions|
  {
    if actions != [] {
      var a := actions[0];
      hide PlainUpdates, AllConserved, UniqueIds, Apply, Enabled;
      PlainStep(cfg, s, a);
      if UniqueIds(Apply(cfg, s, a)) {
        UniqueBefore(cfg, s, a);
        ConservedStep(cfg, s, a);
      }
      ConservationHolds(cfg, Apply(cfg, s, a), actions[1..], t);
    }
  }

  // ---- main results ----

  /** In every reachable state each command handed to `send_task` is in exactly one place, and no place holds
      a command that was not handed in with that task. */
  lemma {:induction false} CommandsAreConserved(cfg: Config, actions: seq<Action>, s: State, id: string, cmd: string)
    requires Run(cfg, START, actions, s) && UniqueIds(s)
    ensures NotInserted(s, id, cmd) + Bit(InMap(s.inner, id, cmd)) + InHand(s, id, cmd) + Delivered(s, id, cmd)
      + Bit((id, cmd) in s.inner.purged) == GivenCommands(s, id, cmd) <= 1
  {
    forall x, y ensures Conserved(START, x, y) { NothingGiven(x, y); }
    ConservationHolds(cfg, START, actions, s);
    assert Conserved(s, id, cmd);
    GivenOnce(s, id, cmd);
  }

  lemma {:induction false} DeliveredTwice(us: seq<SapientUpdate>, j: nat, k: nat, id: string, cmd: string)
    requires j < k < |us| && Carries(us[k], id, cmd)
    ensures Sum(DeliveredBit(id, cmd), us) >= 1
    ensures Carries(us[j], id, cmd) ==> Sum(DeliveredBit(id, cmd), us) >= 2
  {
    SumUpdate(DeliveredBit(id, cmd), us, k, Ignored);
    if Carries(us[j], id, cmd) { SumUpdate(DeliveredBit(id, cmd), us[k := Ignored], j, Ignored); }
  }

  lemma OneCommandPerTask(s: State, id: string, cmd: string, other: string)
    requires UniqueIds(s) && GivenCommands(s, id, cmd) >= 1 && GivenCommands(s, id, other) >= 1
    ensures cmd == other
  {
    SumBitsPositive(s.senders, id, cmd);
    SumBitsPositive(s.senders, id, other);
    hide Sum;
  }

  /** Of all the acknowledgements of a task, at most one carries a command, and it is the command the task
      was sent with. */
  lemma {:induction false} CommandDeliveredAtMostOnce(cfg: Config, actions: seq<Action>, s: State, j: nat, k: nat)
    requires Run(cfg, START, actions, s) && UniqueIds(s)
    requires j < k < |s.inner.updates|
    requires s.inner.updates[j].TaskAcknowledged? && s.inner.updates[k].TaskAcknowledged?
    requires s.inner.updates[j].taskId == s.inner.updates[k].taskId
    ensures s.inner.updates[j].commandId.None? || s.inner.updates[k].commandId.None?
    ensures s.inner.updates[k].commandId.Some? ==>
      exists i :: 0 <= i < |s.senders| &&
        IsOwner(s.senders[i], s.inner.updates[k].taskId, s.inner.updates[k].commandId.value)
  {
    var us := s.inner.updates;
    var id := us[k].taskId;
    if us[k].commandId.Some? {
      var cmd := us[k].commandId.value;
      CommandsAreConserved(cfg, actions, s, id, cmd);
      DeliveredTwice(us, j, k, id, cmd);
      GivenOnce(s, id, cmd);
      if us[j].commandId.Some? {
        var other := us[j].commandId.value;
        CommandsAreConserved(cfg, actions, s, id, other);
        SumUpdate(DeliveredBit(id, other), us, j, Ignored);
        OneCommandPerTask(s, id, cmd, other);
      }
    }
  }
}
