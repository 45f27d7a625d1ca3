// The DLMM reconnect loop as a step system: the connect loop, the peer loop of the current connection,
// writers into the outbound channel and any number of `disconnect` calls, interleaved at their await points.

module Reconnect {
  import opened Base
  import Codec

  type Bytes = Codec.Bytes

  const OUTBOUND_CHANNEL_DEPTH: nat := 64

  /** How a connection's peer loop came to its end. */
  datatype Ending = Live | PeerGone | SendFailed | AbortedHere

  /** What one connection did with the messages it took from the channel. */
  datatype ConnLog = ConnLog(accepted: seq<Bytes>, lost: Option<Bytes>, ending: Ending)

  datatype LoopPc =
    | Dialing
    | Spawned          // the peer loop owns the receiver; the peer is not registered yet
    | Announcing       // registered; the Connected event is not out yet
    | Awaiting         // waiting for the receiver to come back
    | Returned         // receiver back; membership not checked yet
    | Deregistering    // the peer was still a member
    | EmittingLost     // record removed; the Disconnected event is not out yet
    | Ended

  datatype PeerPc =
    | NoPeer
    | Selecting              // in select!
    | Sending(raw: Bytes)    // took a message, send_raw not finished
    | Breaking               // left the loop, about to return the receiver
    | Finished
    | Aborted

  datatype CallPc = CallAbort | CallEmit | CallDone

  /** A `disconnect` that removed a record; `beforeCheck` says the connect loop had not yet checked membership. */
  datatype Call = Call(beforeCheck: bool, pc: CallPc)

  datatype Event = Connected(conn: nat) | Disconnected(conn: nat, localClose: bool)

  /** `calls` holds the disconnect that removed each connection's record; `put` is every message the
      channel ever accepted and `dropped` those that went with the receiver when it was dropped. */
  datatype Snapshot = Snapshot(
    chan: seq<Bytes>, put: seq<Bytes>, dropped: seq<Bytes>, conns: seq<ConnLog>,
    loop: LoopPc, peer: PeerPc, peers: Option<nat>,
    calls: map<nat, Call>, abortAsked: bool, events: seq<Event>)
  {
    function Cur(): nat
      requires conns != []
    {
      |conns| - 1
    }
  }

  const START := Snapshot([], [], [], [], Dialing, NoPeer, None, map[], false, [])

  /** Until the first dial succeeds there is no peer loop and nothing but dialing to do. */
  type State = s: Snapshot | s.conns == [] ==> s.loop.Dialing? && s.peer.NoPeer? witness START

  datatype Action =
    | Put(bytes: Bytes)
    | LoopStep
    | PeerTake
    | PeerSent(ok: bool)
    | PeerLost
    | PeerReturn
    | AbortTakesEffect
    | DisconnectRemove
    | DisconnectStep(conn: nat)

  predicate Enabled(s: State, a: Action) {
    match a
    case Put(_) => !s.peer.Aborted? && !s.loop.Ended? && |s.chan| < OUTBOUND_CHANNEL_DEPTH
    case LoopStep =>
      !s.loop.Ended? && (s.loop.Awaiting? ==> s.peer.Finished? || s.peer.Aborted?)
    case PeerTake => s.peer.Selecting? && s.chan != []
    case PeerSent(_) => s.peer.Sending?
    case PeerLost => s.peer.Selecting?
    case PeerReturn => s.peer.Breaking?
    case AbortTakesEffect => s.abortAsked && (s.peer.Selecting? || s.peer.Sending?)
    case DisconnectRemove => s.peers.Some?
    case DisconnectStep(c) => c in s.calls && !s.calls[c].pc.CallDone?
  }

  function EndCurrent(s: State, lost: Option<Bytes>, ending: Ending): seq<ConnLog>
    requires s.conns != []
  {
    s.conns[s.Cur() := s.conns[s.Cur()].(lost := lost, ending := ending)]
  }

  function LoopApply(s: State): State
    requires Enabled(s, LoopStep)
  {
    match s.loop
    case Dialing =>
      s.(conns := s.conns + [ConnLog([], None, Live)], peer := Selecting, abortAsked := false, loop := Spawned)
    case Spawned => s.(peers := Some(s.Cur()), loop := Announcing)
    case Announcing => s.(events := s.events + [Connected(s.Cur())], loop := Awaiting)
    case Awaiting => s.(loop := if s.peer.Aborted? then Ended else Returned)
    case Returned =>
      if s.peers.None? then s.(loop := Ended, chan := [], dropped := s.dropped + s.chan)
      else s.(loop := Deregistering)
    case Deregistering => s.(peers := None, loop := EmittingLost)
    case EmittingLost =>
      s.(events := s.events + [Disconnected(s.Cur(), false)], loop := Dialing)
  }

  function Apply(s: State, a: Action): State
    requires Enabled(s, a)
  {
    match a
    case Put(b) => s.(chan := s.chan + [b], put := s.put + [b])
    case LoopStep => LoopApply(s)
    case PeerTake => s.(chan := s.chan[1..], peer := Sending(s.chan[0]))
    case PeerSent(ok) =>
      if ok then
        var log := s.conns[s.Cur()];
        s.(conns := s.conns[s.Cur() := log.(accepted := log.accepted + [s.peer.raw])], peer := Selecting)
      else s.(conns := EndCurrent(s, Some(s.peer.raw), SendFailed), peer := Breaking)
    case PeerLost => s.(conns := EndCurrent(s, None, PeerGone), peer := Breaking)
    case PeerReturn => s.(peer := Finished)
    case AbortTakesEffect =>
      s.(conns := EndCurrent(s, if s.peer.Sending? then Some(s.peer.raw) else None, AbortedHere), peer := Aborted,
         chan := [], dropped := s.dropped + s.chan)
    case DisconnectRemove =>
      s.(peers := None, calls := s.calls[s.peers.value := Call(!s.loop.Deregistering?, CallAbort)])
    case DisconnectStep(c) =>
      if s.calls[c].pc.CallAbort? then
        var hits := c + 1 == |s.conns| && (s.peer.Selecting? || s.peer.Sending? || s.peer.Breaking?);
        s.(abortAsked := s.abortAsked || hits, calls := s.calls[c := s.calls[c].(pc := CallEmit)])
      else
        s.(events := s.events + [Disconnected(c, true)], calls := s.calls[c := s.calls[c].(pc := CallDone)])
  }

  ghost predicate Run(s: State, actions: seq<Action>, t: State)
    decreases |actions|
  {
    if actions == [] then s == t
    else Enabled(s, actions[0]) && Run(Apply(s, actions[0]), actions[1..], t)
  }

  // ---- conservation of outbound messages ----

  function LostPart(l: ConnLog): seq<Bytes> { if l.lost.Some? then [l.lost.value] else [] }

  /** Everything the connections took, in order, each connection's loss last. */
  function Taken(conns: seq<ConnLog>): seq<Bytes> {
    if conns == [] then []
    else
      var last := conns[|conns| - 1];
      Taken(conns[..|conns| - 1]) + last.accepted + LostPart(last)
  }

  function InFlight(p: PeerPc): seq<Bytes> { if p.Sending? then [p.raw] else [] }

  /** A connection loses at most one message, and only to a failed send or an abort. */
  predicate LogOk(l: ConnLog) {
    (l.lost.Some? ==> l.ending.SendFailed? || l.ending.AbortedHere?) && (l.ending.SendFailed? ==> l.lost.Some?)
  }

  ghost predicate NoneMissing(s: State) {
    s.put == Taken(s.conns) + InFlight(s.peer) + s.dropped + s.chan
  }

  /** The receiver is gone, and the channel with it. */
  predicate ReceiverGone(s: State) { s.peer.Aborted? || s.loop.Ended? }

  ghost predicate DropsFit(s: State) {
    (s.dropped != [] ==> ReceiverGone(s)) && (ReceiverGone(s) ==> s.chan == [])
  }

  ghost predicate LossesOk(s: State) {
    (forall k :: 0 <= k < |s.conns| ==> LogOk(s.conns[k])) &&
    (s.peer.Selecting? || s.peer.Sending? ==> s.conns[s.Cur()].ending.Live? && s.conns[s.Cur()].lost.None?)
  }

  lemma TakenLast(conns: seq<ConnLog>, l: ConnLog)
    requires conns != []
    ensures Taken(conns[|conns| - 1 := l]) == Taken(conns[..|conns| - 1]) + l.accepted + LostPart(l)
  {
    assert conns[|conns| - 1 := l][..|conns| - 1] == conns[..|conns| - 1];
  }

  lemma {:induction false} TakenNew(conns: seq<ConnLog>)
    ensures Taken(conns + [ConnLog([], None, Live)]) == Taken(conns)
  {
    assert (conns + [ConnLog([], None, Live)])[..|conns|] == conns;
  }

  /** What a step of the peer loop does to the messages taken so far. */
  lemma TakenStep(s: State, a: Action)
    requires LossesOk(s) && LoopFits(s) && Enabled(s, a)
    requires a.PeerSent? || a.PeerLost? || a.AbortTakesEffect?
    ensures Taken(Apply(s, a).conns) == Taken(s.conns) + InFlight(s.peer)
  {
    hide Taken;
    var cur := s.Cur();
    var l := Apply(s, a).conns[cur];
    TakenLast(s.conns, l);
    TakenLast(s.conns, s.conns[cur]);
    assert s.conns[cur := s.conns[cur]] == s.conns;
    assert Taken(s.conns[..cur]) + s.conns[cur].accepted + [] == Taken(s.conns[..cur]) + s.conns[cur].accepted;
    assert l.accepted + LostPart(l) == s.conns[cur].accepted + InFlight(s.peer);
    assert Taken(s.conns[..cur]) + l.accepted + LostPart(l) == Taken(s.conns[..cur]) + (l.accepted + LostPart(l));
  }

  lemma LossesStep(s: State, a: Action)
    requires LossesOk(s) && LoopFits(s) && Enabled(s, a)
    ensures LossesOk(Apply(s, a))
  {
  }

  lemma DropsStep(s: State, a: Action)
    requires DropsFit(s) && LoopFits(s) && Enabled(s, a)
    ensures DropsFit(Apply(s, a))
  {
  }

  lemma PeerKeepsAll(s: State, a: Action)
    requires NoneMissing(s) && LossesOk(s) && DropsFit(s) && LoopFits(s) && Enabled(s, a)
    requires a.PeerSent? || a.PeerLost? || a.AbortTakesEffect?
    ensures NoneMissing(Apply(s, a))
  {
    TakenStep(s, a);
    assert s.dropped == [];
    hide Taken, LossesOk, LoopFits, DropsFit;
    NothingBetween(Taken(s.conns) + InFlight(s.peer), s.chan);
  }

  lemma NothingBetween(taken: seq<Bytes>, rest: seq<Bytes>)
    ensures taken + [] + [] + rest == taken + rest == taken + [] + rest == taken + [] + ([] + rest) + []
  {
  }

  lemma LoopKeepsAll(s: State)
    requires NoneMissing(s) && Enabled(s, LoopStep) && LoopFits(s)
    ensures NoneMissing(Apply(s, LoopStep))
  {
    TakenNew(s.conns);
    hide Taken;
    if s.loop.Returned? && s.peers.None? {
      assert InFlight(s.peer) == [];
      assert Taken(s.conns) + [] + s.dropped + s.chan == Taken(s.conns) + [] + (s.dropped + s.chan) + [];
    }
  }

  lemma TakeKeepsAll(s: State)
    requires NoneMissing(s) && DropsFit(s) && LoopFits(s) && Enabled(s, PeerTake)
    ensures NoneMissing(Apply(s, PeerTake))
  {
    assert s.dropped == [];
    hide Taken, DropsFit, LoopFits;
    assert s.chan == [s.chan[0]] + s.chan[1..];
  }

  lemma NoneMissingStep(s: State, a: Action)
    requires NoneMissing(s) && LossesOk(s) && DropsFit(s) && LoopFits(s) && Enabled(s, a)
    ensures NoneMissing(Apply(s, a))
  {
    if a.AbortTakesEffect? || a.PeerSent? || a.PeerLost? {
      hide NoneMissing, Apply, Enabled;
      PeerKeepsAll(s, a);
    } else if a.LoopStep? {
      hide NoneMissing, Apply, Enabled;
      LoopKeepsAll(s);
    } else if a.PeerTake? {
      hide NoneMissing, Apply, Enabled;
      TakeKeepsAll(s);
    } else {
      hide Taken, LossesOk, DropsFit, LoopFits;
      if a.Put? {
        assert s.put + [a.bytes] == Taken(s.conns) + InFlight(s.peer) + s.dropped + (s.chan + [a.bytes]);
      }
    }
  }

  // ---- where the connect loop can be ----

  /** The connect loop and the peer map keep in step: a record is present from registration until a
      `disconnect` or the loop itself takes it out. */
  ghost predicate LoopFits(s: State) {
    (s.conns == [] <==> s.peer.NoPeer?) &&
    (s.loop.Dialing? || s.loop.Returned? || s.loop.Deregistering? || s.loop.EmittingLost? ==>
      s.peer.Finished? || s.peer.NoPeer?) &&
    (s.loop.Ended? ==> s.peer.Finished? || s.peer.Aborted?)
  }

  /** The record of the current connection is in the map, or one `disconnect` took it. */
  ghost predicate Membership(s: State) {
    (forall c :: c in s.calls ==> c < |s.conns|) &&
    (s.conns != [] ==>
      var cur := s.Cur();
      (forall c :: c in s.calls && c < cur ==> !s.calls[c].beforeCheck) &&
      (s.peers.Some? ==> s.peers.value == cur && cur !in s.calls) &&
      (s.abortAsked || s.peer.Aborted? ==> cur in s.calls && s.calls[cur].beforeCheck) &&
      (cur in s.calls && !s.calls[cur].pc.CallAbort? && (s.peer.Selecting? || s.peer.Sending?) ==> s.abortAsked) &&
      match s.loop
      case Spawned => s.peers.None? && cur !in s.calls
      case Announcing => s.peers.None? ==> cur in s.calls && s.calls[cur].beforeCheck
      case Awaiting => s.peers.None? ==> cur in s.calls && s.calls[cur].beforeCheck
      case Returned => s.peers.None? ==> cur in s.calls && s.calls[cur].beforeCheck
      case Deregistering => s.peers.None? ==> cur in s.calls && !s.calls[cur].beforeCheck
      case EmittingLost => s.peers.None? && (cur in s.calls ==> !s.calls[cur].beforeCheck)
      case Dialing => s.peers.None? && (cur in s.calls ==> !s.calls[cur].beforeCheck)
      case Ended => s.peers.None? && cur in s.calls && s.calls[cur].beforeCheck) &&
    (s.conns == [] ==> s.peers.None? && !s.abortAsked)
  }

  ghost predicate Inv(s: State) {
    NoneMissing(s) && LossesOk(s) && DropsFit(s) && LoopFits(s) && Membership(s) && EventsFit(s)
  }

  lemma LoopFitsStep(s: State, a: Action)
    requires LoopFits(s) && Enabled(s, a)
    ensures LoopFits(Apply(s, a))
  {
  }

  lemma MembershipStep(s: State, a: Action)
    requires LoopFits(s) && Membership(s) && Enabled(s, a)
    ensures Membership(Apply(s, a))
  {
  }

  // ---- the events of each connection ----

  function Count(es: seq<Event>, e: Event): nat { multiset(es)[e] }

  /** The connect loop has emitted its own Disconnected for connection `c`. */
  predicate LoopLeft(s: State, c: nat) {
    c + 1 < |s.conns| || (c + 1 == |s.conns| && s.loop.Dialing?)
  }

  predicate CallFinished(s: State, c: nat) { c in s.calls && s.calls[c].pc.CallDone? }

  predicate WasAnnounced(s: State, c: nat) {
    c + 1 < |s.conns| || (c + 1 == |s.conns| && !s.loop.Spawned? && !s.loop.Announcing?)
  }

  ghost predicate EventsFitAt(s: State, c: nat) {
    Count(s.events, Disconnected(c, false)) == (if LoopLeft(s, c) then 1 else 0) &&
    Count(s.events, Disconnected(c, true)) == (if CallFinished(s, c) then 1 else 0) &&
    Count(s.events, Connected(c)) == (if WasAnnounced(s, c) then 1 else 0)
  }

  ghost predicate EventsFit(s: State) { forall c: nat :: EventsFitAt(s, c) }

  lemma CountPush(es: seq<Event>, e: Event, x: Event)
    ensures Count(es + [e], x) == Count(es, x) + (if e == x then 1 else 0)
  {
  }

  lemma EventsStepAt(s: State, a: Action, c: nat)
    requires LoopFits(s) && Membership(s) && EventsFitAt(s, c) && Enabled(s, a)
    ensures EventsFitAt(Apply(s, a), c)
  {
    hide Count;
    var t := Apply(s, a);
    if |t.events| > |s.events| {
      var e := t.events[|s.events|];
      assert t.events == s.events + [e];
      CountPush(s.events, e, Disconnected(c, false));
      CountPush(s.events, e, Disconnected(c, true));
      CountPush(s.events, e, Connected(c));
    } else {
      assert t.events == s.events;
    }
  }

  lemma EventsStep(s: State, a: Action)
    requires LoopFits(s) && Membership(s) && EventsFit(s) && Enabled(s, a)
    ensures EventsFit(Apply(s, a))
  {
    hide EventsFitAt, LoopFits, Membership;
    forall c: nat ensures EventsFitAt(Apply(s, a), c) { EventsStepAt(s, a, c); }
  }

  lemma {:induction false} InvHolds(s: State, actions: seq<Action>, t: State)
    requires Inv(s) && Run(s, actions, t)
    ensures Inv(t)
    decreases |actions|
  {
    if actions != [] {
      NoneMissingStep(s, actions[0]);
      DropsStep(s, actions[0]);
      LossesStep(s, actions[0]);
      LoopFitsStep(s, actions[0]);
      MembershipStep(s, actions[0]);
      EventsStep(s, actions[0]);
      hide Inv, Apply;
      InvHolds(Apply(s, actions[0]), actions[1..], t);
    }
  }

  lemma {:induction false} Reachable(actions: seq<Action>, t: State)
    requires Run(START, actions, t)
    ensures Inv(t)
  {
    InvHolds(START, actions, t);
  }

  // ---- main results ----

  /** Over any run: the messages put into the channel are, in order, those each connection got accepted
      followed by at most one it lost, then the one being sent, then those dropped with the receiver, then
      those still queued. A loss needs a failed send, or an abort that caught a message in flight. Messages
      are dropped only by an early `disconnect`, and then nothing stays queued. */
  lemma {:induction false} OutboundIsConserved(actions: seq<Action>, t: State)
    requires Run(START, actions, t)
    ensures t.put == Taken(t.conns) + InFlight(t.peer) + t.dropped + t.chan
    ensures forall k :: 0 <= k < |t.conns| ==> LogOk(t.conns[k])
    ensures t.dropped != [] ==> t.chan == [] && t.conns != [] && t.Cur() in t.calls && t.calls[t.Cur()].beforeCheck
  {
    Reachable(actions, t);
    hide Run, Taken, EventsFit;
  }

  /** Once the receiver is gone, as it is when the loop has ended, everything not taken has been dropped; and
      before that nothing is: what is queued when an early `disconnect` takes effect is lost whole. */
  lemma {:induction false} DroppedWhenReceiverGoes(actions: seq<Action>, t: State)
    requires Run(START, actions, t)
    ensures if ReceiverGone(t) then t.put == Taken(t.conns) + t.dropped
      else t.dropped == [] && t.put == Taken(t.conns) + InFlight(t.peer) + t.chan
  {
    Reachable(actions, t);
    assert ReceiverGone(t) ==> InFlight(t.peer) == [] && t.chan == [];
    assert !ReceiverGone(t) ==> t.dropped == [];
    hide Run, Taken, EventsFit, LossesOk, LoopFits, Membership, DropsFit, InFlight;
    NothingBetween(Taken(t.conns), t.dropped);
    assert Taken(t.conns) + InFlight(t.peer) + [] + t.chan == Taken(t.conns) + InFlight(t.peer) + t.chan;
  }

  /** A `disconnect` that removes the record before the membership check is final: the loop never dials
      again, and its own event is the only Disconnected event of that connection. */
  lemma {:induction false} EarlyDisconnectIsFinal(actions: seq<Action>, t: State, c: nat)
    requires Run(START, actions, t) && c in t.calls && t.calls[c].beforeCheck
    ensures c + 1 == |t.conns| && !t.loop.Dialing?
    ensures Count(t.events, Disconnected(c, false)) == 0
    ensures Count(t.events, Disconnected(c, true)) == (if t.calls[c].pc.CallDone? then 1 else 0)
  {
    Reachable(actions, t);
    assert EventsFitAt(t, c);
  }

  /** Nothing else ends the loop. */
  lemma {:induction false} OnlyEarlyDisconnectEndsLoop(actions: seq<Action>, t: State)
    requires Run(START, actions, t) && t.loop.Ended?
    ensures t.Cur() in t.calls && t.calls[t.Cur()].beforeCheck
  {
    Reachable(actions, t);
  }

  /** A connection the loop has left behind was reported once by the loop; it is reported a second time
      exactly when a `disconnect` slipped in after the membership check and has run to its end. */
  lemma {:induction false} RedialReportsOnceIff(actions: seq<Action>, t: State, c: nat)
    requires Run(START, actions, t) && LoopLeft(t, c)
    ensures Count(t.events, Connected(c)) == 1 && Count(t.events, Disconnected(c, false)) == 1
    ensures Count(t.events, Disconnected(c, true)) == 0 <==> !(c in t.calls && t.calls[c].pc.CallDone?)
    ensures c in t.calls ==> !t.calls[c].beforeCheck
  {
    Reachable(actions, t);
    assert EventsFitAt(t, c);
  }

  // ---- why a connection ended ----

  /** The ending a step brings on the current connection: losing the peer, a failed send, an abort. */
  function Cause(a: Action): Ending {
    if a.PeerLost? then PeerGone
    else if a.PeerSent? && !a.ok then SendFailed
    else if a.AbortTakesEffect? then AbortedHere
    else Live
  }

  function EndingOf(s: State, k: nat): Ending { if k < |s.conns| then s.conns[k].ending else Live }

  /** Some step of the run, taken while connection `k` is the current one, brings this ending. */
  ghost predicate BroughtIn(s: State, actions: seq<Action>, k: nat, e: Ending)
    decreases |actions|
  {
    actions != [] && Enabled(s, actions[0]) &&
    ((k + 1 == |s.conns| && Cause(actions[0]) == e) || BroughtIn(Apply(s, actions[0]), actions[1..], k, e))
  }

  lemma EndingStep(s: State, a: Action, k: nat)
    requires LossesOk(s) && LoopFits(s) && Enabled(s, a)
    ensures EndingOf(Apply(s, a), k) == if k + 1 == |s.conns| && !Cause(a).Live? then Cause(a) else EndingOf(s, k)
    ensures k + 1 == |s.conns| && !Cause(a).Live? ==> EndingOf(s, k).Live?
  {
  }

  lemma {:induction false} EndingIff(s: State, actions: seq<Action>, t: State, k: nat, e: Ending)
    requires Inv(s) && Run(s, actions, t) && !e.Live?
    ensures EndingOf(t, k) == e <==> EndingOf(s, k) == e || BroughtIn(s, actions, k, e)
    decreases |actions|
  {
    if actions != [] {
      EndingStep(s, actions[0], k);
      InvHolds(s, [actions[0]], Apply(s, actions[0]));
      hide Inv, Apply, Enabled, Cause, EndingOf;
      EndingIff(Apply(s, actions[0]), actions[1..], t, k, e);
    }
  }

  /** A connection ends exactly for the reason it records: its peer was lost, a send on it failed, or an abort
      caught it, and otherwise it is live. A successful send ends nothing. */
  lemma {:induction false} EndingHasItsCause(actions: seq<Action>, t: State, k: nat)
    requires Run(START, actions, t) && k < |t.conns|
    ensures t.conns[k].ending == PeerGone <==> BroughtIn(START, actions, k, PeerGone)
    ensures t.conns[k].ending == SendFailed <==> BroughtIn(START, actions, k, SendFailed)
    ensures t.conns[k].ending == AbortedHere <==> BroughtIn(START, actions, k, AbortedHere)
  {
    Reachable([], START);
    EndingIff(START, actions, t, k, PeerGone);
    EndingIff(START, actions, t, k, SendFailed);
    EndingIff(START, actions, t, k, AbortedHere);
    hide Run, Inv;
  }

  /** The peer loop serves the current connection as long as that is live, and no other is. */
  ghost predicate ServesLive(s: State) {
    forall k :: 0 <= k < |s.conns| ==>
      (s.conns[k].ending.Live? <==> k + 1 == |s.conns| && (s.peer.Selecting? || s.peer.Sending?))
  }

  lemma ServesStep(s: State, a: Action)
    requires LoopFits(s) && ServesLive(s) && Enabled(s, a)
    ensures ServesLive(Apply(s, a))
  {
  }

  lemma {:induction false} ServesHolds(s: State, actions: seq<Action>, t: State)
    requires Inv(s) && ServesLive(s) && Run(s, actions, t)
    ensures ServesLive(t)
    decreases |actions|
  {
    if actions != [] {
      ServesStep(s, actions[0]);
      InvHolds(s, [actions[0]], Apply(s, actions[0]));
      hide Inv, Apply, Enabled, ServesLive;
      ServesHolds(Apply(s, actions[0]), actions[1..], t);
    }
  }

  lemma {:induction false} PeerServesLive(actions: seq<Action>, t: State)
    requires Run(START, actions, t)
    ensures ServesLive(t)
  {
    Reachable([], START);
    ServesHolds(START, actions, t);
  }

  /** After a successful send the peer loop goes on with the same connection and the next message queued. */
  lemma SentThenNext(s: State)
    requires Enabled(s, PeerSent(true))
    ensures var t := Apply(s, PeerSent(true));
      |t.conns| == |s.conns| && t.peer.Selecting? && t.chan == s.chan && t.loop == s.loop && t.events == s.events &&
      t.conns[s.Cur()] == s.conns[s.Cur()].(accepted := s.conns[s.Cur()].accepted + [s.peer.raw]) &&
      (s.chan != [] ==> Enabled(t, PeerTake) && Apply(t, PeerTake).peer == Sending(s.chan[0]))
  {
  }

  /** While the receiver lives, a writer waits exactly while the channel holds 64 messages or more. */
  lemma PutWaitsWhileFull(s: State, bytes: Bytes)
    requires !ReceiverGone(s)
    ensures Enabled(s, Put(bytes)) <==> |s.chan| < 64
  {
  }

  /** The channel never holds more than 64 messages. */
  lemma {:induction false} ChannelIsBounded(s: State, actions: seq<Action>, t: State)
    requires Run(s, actions, t) && |s.chan| <= 64
    ensures |t.chan| <= 64
    decreases |actions|
  {
    if actions != [] {
      assert |Apply(s, actions[0]).chan| <= 64;
      hide Apply, Enabled;
      ChannelIsBounded(Apply(s, actions[0]), actions[1..], t);
    }
  }

  // ---- closing a connection takes a bounded number of steps ----

  /** Steps that wind a connection up: the connect loop short of dialing, the peer loop handing its receiver
      back, an abort, and the `disconnect` that took the record. */
  predicate Closing(s: State, a: Action) {
    match a
    case LoopStep => !s.loop.Dialing?
    case PeerReturn => true
    case AbortTakesEffect => true
    case DisconnectStep(c) => s.conns != [] && c == s.Cur()
    case _ => false
  }

  predicate Dial(s: State, a: Action) { a.LoopStep? && s.loop.Dialing? }

  /** Nothing is left to wind up. */
  ghost predicate Quiet(s: State) { forall a :: Closing(s, a) ==> !Enabled(s, a) }

  function LoopWork(pc: LoopPc): nat {
    match pc
    case Spawned => 6
    case Announcing => 5
    case Awaiting => 4
    case Returned => 3
    case Deregistering => 2
    case EmittingLost => 1
    case _ => 0
  }

  function PeerWork(pc: PeerPc): nat {
    match pc
    case Selecting => 2
    case Sending(_) => 2
    case Breaking => 1
    case _ => 0
  }

  /** Closing steps the current connection can still take. */
  function Work(s: State): nat {
    LoopWork(s.loop) + PeerWork(s.peer) +
    (if s.conns == [] then 0
     else if s.Cur() !in s.calls then 3
     else match s.calls[s.Cur()].pc case CallAbort => 2 case CallEmit => 1 case CallDone => 0)
  }

  function ClosingSteps(s: State, actions: seq<Action>): nat
    decreases |actions|
  {
    if actions == [] || !Enabled(s, actions[0]) then 0
    else (if Closing(s, actions[0]) then 1 else 0) + ClosingSteps(Apply(s, actions[0]), actions[1..])
  }

  function Dials(s: State, actions: seq<Action>): nat
    decreases |actions|
  {
    if actions == [] || !Enabled(s, actions[0]) then 0
    else (if Dial(s, actions[0]) then 1 else 0) + Dials(Apply(s, actions[0]), actions[1..])
  }

  const FULL_WORK: nat := 11

  lemma WorkStep(s: State, a: Action)
    requires LoopFits(s) && Membership(s) && Enabled(s, a)
    ensures Work(Apply(s, a)) + (if Closing(s, a) then 1 else 0) <= Work(s) + (if Dial(s, a) then FULL_WORK else 0)
    ensures Work(s) <= FULL_WORK
  {
  }

  /** However puts, sends and other `disconnect` calls interleave, the closing steps of a run are bounded: by
      the work of the connection it starts with, and a fixed amount more for each dial. */
  lemma {:induction false} ClosingIsBounded(s: State, actions: seq<Action>, t: State)
    requires Inv(s) && Run(s, actions, t)
    ensures ClosingSteps(s, actions) + Work(t) <= Work(s) + FULL_WORK * Dials(s, actions)
    decreases |actions|
  {
    if actions != [] {
      WorkStep(s, actions[0]);
      InvHolds(s, [actions[0]], Apply(s, actions[0]));
      hide Inv, Apply, Enabled, Work, Closing, Dial;
      ClosingIsBounded(Apply(s, actions[0]), actions[1..], t);
    }
  }

  /** With nothing left to wind up, the loop waits for a connection that is up and registered, or dials, or has
      ended after an early `disconnect`. */
  lemma {:induction false} QuietLoop(actions: seq<Action>, t: State)
    requires Run(START, actions, t) && t.conns != [] && Quiet(t)
    ensures t.loop.Dialing? ||
      (t.loop.Awaiting? && (t.peer.Selecting? || t.peer.Sending?) && t.peers == Some(t.Cur())) ||
      (t.loop.Ended? && t.Cur() in t.calls && t.calls[t.Cur()].beforeCheck)
  {
    Reachable(actions, t);
    assert Closing(t, PeerReturn) && Closing(t, AbortTakesEffect) && Closing(t, DisconnectStep(t.Cur()));
    assert t.loop.Dialing? || Closing(t, LoopStep);
    hide Run, NoneMissing, LossesOk, EventsFit;
  }

  /** An early `disconnect` does end the loop: no dial follows, at most FULL_WORK closing steps do, and when
      none is left the loop has ended, with the one Disconnected event of that call. */
  lemma {:induction false} EarlyDisconnectFinishes(before: seq<Action>, s: State, c: nat, after: seq<Action>, t: State)
    requires Run(START, before, s) && c in s.calls && s.calls[c].beforeCheck && Run(s, after, t)
    ensures Dials(s, after) == 0 && ClosingSteps(s, after) <= FULL_WORK
    ensures Quiet(t) ==> t.loop.Ended?
    ensures Quiet(t) ==> Count(t.events, Disconnected(c, true)) == 1 && Count(t.events, Disconnected(c, false)) == 0
  {
    Reachable(before, s);
    WorkBound(s);
    NoDialAfterEarly(s, c, after, t);
    ClosingIsBounded(s, after, t);
    RunJoins(START, before, s, after, t);
    hide Run, Inv, Quiet;
    EarlyDisconnectIsFinal(before + after, t, c);
    if Quiet(t) { QuietAfterEarly(before + after, t, c); }
  }

  lemma WorkBound(s: State)
    ensures Work(s) <= FULL_WORK
  {
  }

  lemma {:induction false} QuietAfterEarly(actions: seq<Action>, t: State, c: nat)
    requires Run(START, actions, t) && c in t.calls && t.calls[c].beforeCheck && Quiet(t)
    requires c + 1 == |t.conns| && !t.loop.Dialing?
    ensures t.loop.Ended? && t.calls[c].pc.CallDone?
  {
    Reachable(actions, t);
    QuietLoop(actions, t);
    assert Closing(t, DisconnectStep(c));
    hide Run, NoneMissing, LossesOk, EventsFit;
  }

  /** A record stays taken, and early stays early. */
  lemma CallStays(s: State, a: Action, c: nat)
    requires Inv(s) && Enabled(s, a) && c in s.calls && s.calls[c].beforeCheck
    ensures c in Apply(s, a).calls && Apply(s, a).calls[c].beforeCheck && !Dial(s, a)
  {
    hide NoneMissing, LossesOk, EventsFit;
  }

  lemma {:induction false} NoDialAfterEarly(s: State, c: nat, actions: seq<Action>, t: State)
    requires Inv(s) && Run(s, actions, t) && c in s.calls && s.calls[c].beforeCheck
    ensures Dials(s, actions) == 0 && c in t.calls && t.calls[c].beforeCheck
    decreases |actions|
  {
    if actions != [] {
      CallStays(s, actions[0], c);
      InvHolds(s, [actions[0]], Apply(s, actions[0]));
      hide Inv, Apply, Enabled, Dial;
      NoDialAfterEarly(Apply(s, actions[0]), c, actions[1..], t);
    }
  }

  /** A connection lost without an early `disconnect` is redialed: if no dial has followed yet, at most
      FULL_WORK closing steps have, and when none is left the loop dials. */
  lemma {:induction false} LostConnectionIsRedialed(before: seq<Action>, s: State, after: seq<Action>, t: State)
    requires Run(START, before, s) && s.conns != [] && Run(s, after, t) && Dials(s, after) == 0
    requires !t.peer.Selecting? && !t.peer.Sending?
    requires !(t.conns != [] && t.Cur() in t.calls && t.calls[t.Cur()].beforeCheck)
    ensures ClosingSteps(s, after) <= FULL_WORK
    ensures Quiet(t) ==> t.loop.Dialing? && Enabled(t, LoopStep)
  {
    Reachable(before, s);
    WorkBound(s);
    ClosingIsBounded(s, after, t);
    RunJoins(START, before, s, after, t);
    ConnectionsKept(s, after, t);
    hide Run, Inv, Quiet;
    if Quiet(t) { QuietLoop(before + after, t); }
  }

  lemma {:induction false} ConnectionsKept(s: State, actions: seq<Action>, t: State)
    requires Run(s, actions, t)
    ensures |s.conns| <= |t.conns|
    decreases |actions|
  {
    if actions != [] {
      assert |s.conns| <= |Apply(s, actions[0]).conns|;
      hide Apply, Enabled;
      ConnectionsKept(Apply(s, actions[0]), actions[1..], t);
    }
  }

  lemma {:induction false} RunJoins(s: State, xs: seq<Action>, t: State, ys: seq<Action>, u: State)
    requires Run(s, xs, t) && Run(t, ys, u)
    ensures Run(s, xs + ys, u)
    decreases |xs|
  {
    hide Apply, Enabled;
    if xs == [] {
      assert xs + ys == ys;
    } else {
      RunJoins(Apply(s, xs[0]), xs[1..], t, ys, u);
      assert (xs + ys)[1..] == xs[1..] + ys;
    }
  }

  /** One more step at the end of a run. */
  lemma {:induction false} RunThen(s: State, a: seq<Action>, m: State, x: Action)
    requires Run(s, a, m) && Enabled(m, x)
    ensures Run(s, a + [x], Apply(m, x))
    decreases |a|
  {
    hide Apply, Enabled;
    if a == [] {
      assert (a + [x])[1..] == [];
    } else {
      RunThen(Apply(s, a[0]), a[1..], m, x);
      assert (a + [x])[1..] == a[1..] + [x];
    }
  }

  const AWAITING_FIRST := Snapshot(
    [], [], [], [ConnLog([], None, Live)], Awaiting, Selecting, Some(0), map[], false, [Connected(0)])

  const CHECK_PASSED := AWAITING_FIRST.(
    conns := [ConnLog([], None, PeerGone)], peer := Finished, loop := Deregistering)

  const REPORTED_LOCALLY := CHECK_PASSED.(
    peers := None, calls := map[0 := Call(false, CallDone)], events := [Connected(0), Disconnected(0, true)])

  const REDIALED := REPORTED_LOCALLY.(
    events := [Connected(0), Disconnected(0, true), Disconnected(0, false)], loop := Spawned, peer := Selecting,
    conns := [ConnLog([], None, PeerGone), ConnLog([], None, Live)])

  lemma ReachAwaiting() returns (a: seq<Action>)
    ensures Run(START, a, AWAITING_FIRST)
  {
    var s1 := Apply(START, LoopStep);
    var s2 := Apply(s1, LoopStep);
    RunThen(START, [], START, LoopStep);
    RunThen(START, [LoopStep], s1, LoopStep);
    RunThen(START, [LoopStep] + [LoopStep], s2, LoopStep);
    a := [LoopStep] + [LoopStep] + [LoopStep];
  }

  lemma ReachCheckPassed() returns (a: seq<Action>)
    ensures Run(START, a, CHECK_PASSED)
  {
    hide Run;
    a := ReachAwaiting();
    var s1 := Apply(AWAITING_FIRST, PeerLost);
    var s2 := Apply(s1, PeerReturn);
    var s3 := Apply(s2, LoopStep);
    RunThen(START, a, AWAITING_FIRST, PeerLost);
    RunThen(START, a + [PeerLost], s1, PeerReturn);
    RunThen(START, a + [PeerLost] + [PeerReturn], s2, LoopStep);
    RunThen(START, a + [PeerLost] + [PeerReturn] + [LoopStep], s3, LoopStep);
    assert Apply(s3, LoopStep).conns == CHECK_PASSED.conns;
    a := a + [PeerLost] + [PeerReturn] + [LoopStep] + [LoopStep];
  }

  lemma ReachReportedLocally() returns (a: seq<Action>)
    ensures Run(START, a, REPORTED_LOCALLY)
  {
    hide Run;
    a := ReachCheckPassed();
    var s1 := Apply(CHECK_PASSED, DisconnectRemove);
    var s2 := Apply(s1, DisconnectStep(0));
    RunThen(START, a, CHECK_PASSED, DisconnectRemove);
    RunThen(START, a + [DisconnectRemove], s1, DisconnectStep(0));
    RunThen(START, a + [DisconnectRemove] + [DisconnectStep(0)], s2, DisconnectStep(0));
    var s3 := Apply(s2, DisconnectStep(0));
    assert s3.calls == REPORTED_LOCALLY.calls && s3.events == REPORTED_LOCALLY.events;
    a := a + [DisconnectRemove] + [DisconnectStep(0)] + [DisconnectStep(0)];
  }

  lemma RedialedTwiceReported()
    ensures Count(REDIALED.events, Disconnected(0, false)) == 1 && Count(REDIALED.events, Disconnected(0, true)) == 1
  {
  }

  /** The late `disconnect` does happen: one connection, two Disconnected events, and a redial. */
  lemma LateDisconnectReportsTwice() returns (a: seq<Action>)
    ensures Run(START, a, REDIALED)
    ensures Count(REDIALED.events, Disconnected(0, false)) == 1 && Count(REDIALED.events, Disconnected(0, true)) == 1
    ensures |REDIALED.conns| == 2
  {
    hide Run;
    a := ReachReportedLocally();
    RedialedTwiceReported();
    var s1 := Apply(REPORTED_LOCALLY, LoopStep);
    var s2 := Apply(s1, LoopStep);
    RunThen(START, a, REPORTED_LOCALLY, LoopStep);
    RunThen(START, a + [LoopStep], s1, LoopStep);
    RunThen(START, a + [LoopStep] + [LoopStep], s2, LoopStep);
    hide Count;
    var s3 := Apply(s2, LoopStep);
    assert s3.conns == REDIALED.conns && s3.events == REDIALED.events;
    a := a + [LoopStep] + [LoopStep] + [LoopStep];
  }

  const PUT_ONE := AWAITING_FIRST.(chan := [[]], put := [[]])

  const QUEUE_DROPPED := PUT_ONE.(
    chan := [], dropped := [[]], peer := Aborted, conns := [ConnLog([], None, AbortedHere)],
    peers := None, calls := map[0 := Call(true, CallEmit)], abortAsked := true)

  /** An early `disconnect` does drop what is queued: no connection lost anything, and yet a message is gone. */
  lemma EarlyDisconnectDropsQueue() returns (a: seq<Action>)
    ensures Run(START, a, QUEUE_DROPPED)
    ensures QUEUE_DROPPED.dropped == QUEUE_DROPPED.put != [] && QUEUE_DROPPED.conns[0].lost.None?
  {
    hide Run;
    a := ReachAwaiting();
    RunThen(START, a, AWAITING_FIRST, Put([]));
    assert Apply(AWAITING_FIRST, Put([])).chan == [[]];
    var s1 := Apply(PUT_ONE, DisconnectRemove);
    RunThen(START, a + [Put([])], PUT_ONE, DisconnectRemove);
    var s2 := Apply(s1, DisconnectStep(0));
    RunThen(START, a + [Put([])] + [DisconnectRemove], s1, DisconnectStep(0));
    RunThen(START, a + [Put([])] + [DisconnectRemove] + [DisconnectStep(0)], s2, AbortTakesEffect);
    var s3 := Apply(s2, AbortTakesEffect);
    assert s3.calls == QUEUE_DROPPED.calls && s3.conns == QUEUE_DROPPED.conns && s3.dropped == QUEUE_DROPPED.dropped;
    a := a + [Put([])] + [DisconnectRemove] + [DisconnectStep(0)] + [AbortTakesEffect];
  }
}
