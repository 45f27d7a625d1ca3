// When the published sender of a node is that of a connected peer, and when a connected peer has lost it.

module BridgePresence {
  import opened Base
  import opened TaskQueues
  import opened Bridge
  import opened BridgeTasks
  import opened BridgeConnections
  import Registry
  import Routing

  /** Its cleanup has taken the node's sender out. */
  predicate Left(h: Handler) { h.pc.LeaveRegistry? || h.pc.EmitGone? || h.pc.Closed? }

  /** Published, and not cleaned up yet: the connection is up as far as `connections` is concerned. */
  predicate Serves(h: Handler, n: string) { h.registered == Some(n) && !h.pc.Publish? && !Left(h) }

  ghost predicate Owns(s: State, c: nat, n: string) { n in s.inner.connections && s.inner.connections[n] == c }

  /** Every published sender belongs to a connection that still serves the node. */
  ghost predicate OwnersServe(s: State) {
    forall n :: n in s.inner.connections ==>
      s.inner.connections[n] < |s.handlers| && Serves(s.handlers[s.inner.connections[n]], n)
  }

  /** Another connection of the same node publishes itself or cleans up while `c` serves it. */
  ghost predicate Displaces(s: State, a: Action, c: nat, n: string) {
    c < |s.handlers| && Serves(s.handlers[c], n) &&
    a.HandlerStep? && a.c < |s.handlers| && a.c != c && s.handlers[a.c].registered == Some(n) &&
    (s.handlers[a.c].pc.Publish? || s.handlers[a.c].pc.LeaveConnections?)
  }

  ghost predicate Displaced(cfg: Config, s: State, actions: seq<Action>, c: nat, n: string)
    decreases |actions|
  {
    actions != [] && Enabled(s, actions[0]) &&
    (Displaces(s, actions[0], c, n) || Displaced(cfg, Apply(cfg, s, actions[0]), actions[1..], c, n))
  }

  predicate ServesIn(s: State, c: nat, n: string) { c < |s.handlers| && Serves(s.handlers[c], n) }

  predicate LeftIn(s: State, c: nat) { c < |s.handlers| && Left(s.handlers[c]) }

  // ---- one step ----

  /** How one step moves the published senders. */
  lemma ConnectionsEffect(cfg: Config, s: State, a: Action)
    requires Enabled(s, a) && Always(s)
    ensures var m, m' := s.inner.connections, Apply(cfg, s, a).inner.connections;
      if a.HandlerStep? && s.handlers[a.c].pc.Publish? then m' == m[NodeOf(s.handlers[a.c]) := a.c]
      else if a.HandlerStep? && s.handlers[a.c].pc.LeaveConnections? then m' == m - {NodeOf(s.handlers[a.c])}
      else m' == m
  {
    if a.HandlerStep? {
      HandlerShared(cfg, s.inner, a.c, s.handlers[a.c], a.admitted);
      hide HandlerMove, HandlerReady, Always, Shrunk, NodeOf;
    } else if a.SenderStep? {
      hide Always;
      if !s.senders[a.i].pc.SendLive? { SenderShared(cfg, s.inner, a.i, s.senders[a.i]); }
      hide SenderMove, QueuesAfterEnqueue;
    } else {
      hide Always, Routing.ExtractTaskId, Received;
    }
  }

  /** A connection's own step, as far as serving goes. */
  lemma OwnServing(cfg: Config, b: Inner, c: nat, h: Handler, admitted: bool)
    requires HandlerReady(b, h)
    ensures var h' := HandlerMove(cfg, b, c, h, admitted).1;
      h'.registered == h.registered && !h'.pc.Publish? &&
      (Left(h') <==> Left(h) || h.pc.LeaveConnections?)
  {
    if h.pc.Route? { RouteFits(cfg, b, h, admitted); }
    hide AfterDrain, AfterAck, PendingOf, ExpiredIds, Purge, RegistrationAck, CapabilityOf, TakenCommand, NodeOf;
    hide PcAfterRoute, Registry.Upserted, Registry.PositionIn;
  }

  predicate StepOf(a: Action, c: nat) { a.HandlerStep? && a.c == c }

  /** Serving starts with the publication, ends with the cleanup, and does not start again. */
  lemma ServingStep(cfg: Config, s: State, a: Action, c: nat, n: string)
    requires Enabled(s, a) && c < |s.handlers| && PcFits(s.handlers[c])
    ensures c < |Apply(cfg, s, a).handlers|
    ensures var h, h' := s.handlers[c], Apply(cfg, s, a).handlers[c];
      (if StepOf(a, c) && h.pc.Publish? then Serves(h', n) <==> h.registered == Some(n)
       else if StepOf(a, c) && h.pc.LeaveConnections? then !Serves(h', n) && Left(h')
       else Serves(h', n) <==> Serves(h, n)) &&
      (Left(h) ==> Left(h'))
  {
    var h := s.handlers[c];
    if !Touches(a, c) {
      OtherStep(cfg, s, a, c);
      hide Apply, Enabled;
    } else if a.HandlerStep? {
      OwnServing(cfg, s.inner, c, h, a.admitted);
      hide HandlerMove, HandlerReady;
    }
  }

  lemma NewcomersServeNone(cfg: Config, s: State, a: Action, c: nat, n: string)
    requires Enabled(s, a) && c >= |s.handlers|
    ensures !ServesIn(Apply(cfg, s, a), c, n)
  {
    HandlersOnlyAdded(cfg, s, a);
    hide Apply, Enabled;
  }

  lemma OwnersServeStep(cfg: Config, s: State, a: Action)
    requires Enabled(s, a) && Always(s) && AllFirst(s) && OwnersServe(s)
    ensures OwnersServe(Apply(cfg, s, a))
  {
    var t := Apply(cfg, s, a);
    ConnectionsEffect(cfg, s, a);
    assert a.HandlerStep? ==> a.c < |s.handlers|;
    forall n | n in t.inner.connections
      ensures t.inner.connections[n] < |t.handlers| && Serves(t.handlers[t.inner.connections[n]], n)
    {
      OwnerServes(cfg, s, a, n);
    }
    hide Apply, Enabled, Always, AllFirst, Serves;
  }

  lemma OwnerServes(cfg: Config, s: State, a: Action, n: string)
    requires Enabled(s, a) && Always(s) && AllFirst(s) && OwnersServe(s)
    requires n in Apply(cfg, s, a).inner.connections
    ensures ServesIn(Apply(cfg, s, a), Apply(cfg, s, a).inner.connections[n], n)
  {
    var t := Apply(cfg, s, a);
    var c := t.inner.connections[n];
    ConnectionsEffect(cfg, s, a);
    assert a.HandlerStep? ==> a.c < |s.handlers|;
    assert c < |s.handlers|;
    assert FirstFits(s.handlers[c]);
    ServingStep(cfg, s, a, c, n);
    hide Apply, Enabled, Always, AllFirst;
  }

  /** A serving connection owns its node's entry from its publication on, until it is displaced. */
  lemma OwnsStep(cfg: Config, s: State, a: Action, c: nat, n: string)
    requires Enabled(s, a) && Always(s) && AllFirst(s) && ServesIn(Apply(cfg, s, a), c, n)
    ensures Owns(Apply(cfg, s, a), c, n) <==>
      (ServesIn(s, c, n) ==> Owns(s, c, n) && !Displaces(s, a, c, n))
  {
    if c >= |s.handlers| { NewcomersServeNone(cfg, s, a, c, n); }
    ConnectionsEffect(cfg, s, a);
    assert FirstFits(s.handlers[c]);
    assert a.HandlerStep? ==> a.c < |s.handlers| && FirstFits(s.handlers[a.c]);
    ServingStep(cfg, s, a, c, n);
    hide Apply, Enabled, Always, AllFirst;
  }

  lemma LeftStep(cfg: Config, s: State, a: Action, c: nat)
    requires Enabled(s, a) && AllFirst(s) && LeftIn(s, c)
    ensures LeftIn(Apply(cfg, s, a), c)
  {
    assert FirstFits(s.handlers[c]);
    ServingStep(cfg, s, a, c, "");
    hide Apply, Enabled, AllFirst;
  }

  /** Who stops serving has left. */
  lemma StopsServing(cfg: Config, s: State, a: Action, c: nat, n: string)
    requires Enabled(s, a) && AllFirst(s) && ServesIn(s, c, n)
    ensures ServesIn(Apply(cfg, s, a), c, n) || LeftIn(Apply(cfg, s, a), c)
  {
    assert FirstFits(s.handlers[c]);
    ServingStep(cfg, s, a, c, n);
    hide Apply, Enabled, AllFirst;
  }

  // ---- whole runs ----

  lemma {:induction false} LeftHolds(cfg: Config, s: State, actions: seq<Action>, t: State, c: nat, n: string)
    requires Run(cfg, s, actions, t) && Always(s) && AllFirst(s) && LeftIn(s, c)
    ensures !ServesIn(t, c, n)
    decreases |actions|
  {
    if actions != [] {
      LeftStep(cfg, s, actions[0], c);
      AlwaysStep(cfg, s, actions[0]);
      AllFirstStep(cfg, s, actions[0]);
      hide Apply, Enabled, Always, AllFirst, LeftIn, ServesIn;
      LeftHolds(cfg, Apply(cfg, s, actions[0]), actions[1..], t, c, n);
    }
  }

  lemma {:induction false} OwnsIff(cfg: Config, s: State, actions: seq<Action>, t: State, c: nat, n: string)
    requires Run(cfg, s, actions, t) && Always(s) && AllFirst(s) && ServesIn(t, c, n)
    ensures Owns(t, c, n) <==> (ServesIn(s, c, n) ==> Owns(s, c, n)) && !Displaced(cfg, s, actions, c, n)
    decreases |actions|
  {
    if actions != [] {
      var s' := Apply(cfg, s, actions[0]);
      AlwaysStep(cfg, s, actions[0]);
      AllFirstStep(cfg, s, actions[0]);
      assert !ServesIn(s, c, n) ==> !Displaces(s, actions[0], c, n);
      hide Apply, Enabled, Always, AllFirst, ServesIn, LeftIn, Owns, Displaces;
      OwnsIff(cfg, s', actions[1..], t, c, n);
      if ServesIn(s', c, n) {
        OwnsStep(cfg, s, actions[0], c, n);
      } else if ServesIn(s, c, n) {
        StopsServing(cfg, s, actions[0], c, n);
        LeftHolds(cfg, s', actions[1..], t, c, n);
      }
    }
  }

  lemma {:induction false} OwnersServeHolds(cfg: Config, s: State, actions: seq<Action>, t: State)
    requires Run(cfg, s, actions, t) && Always(s) && AllFirst(s) && OwnersServe(s)
    ensures OwnersServe(t)
    decreases |actions|
  {
    if actions != [] {
      AlwaysStep(cfg, s, actions[0]);
      AllFirstStep(cfg, s, actions[0]);
      OwnersServeStep(cfg, s, actions[0]);
      hide Apply, Enabled, Always, AllFirst, OwnersServe;
      OwnersServeHolds(cfg, Apply(cfg, s, actions[0]), actions[1..], t);
    }
  }

  /** In every reachable state a node has a published sender if and only if some connection serves it that was
      not displaced, by another connection of the same node publishing itself or cleaning up; and then the
      sender is that connection's. */
  lemma {:induction false} SenderPresentIff(cfg: Config, actions: seq<Action>, t: State, n: string)
    requires Run(cfg, START, actions, t)
    ensures n in t.inner.connections <==>
      exists c: nat :: ServesIn(t, c, n) && !Displaced(cfg, START, actions, c, n)
    ensures forall c: nat :: ServesIn(t, c, n) && !Displaced(cfg, START, actions, c, n) ==> Owns(t, c, n)
  {
    OwnersServeHolds(cfg, START, actions, t);
    forall c: nat | ServesIn(t, c, n) ensures Owns(t, c, n) <==> !Displaced(cfg, START, actions, c, n) {
      OwnsIff(cfg, START, actions, t, c, n);
    }
    hide Run, Displaced, Serves;
    if n in t.inner.connections {
      var c: nat := t.inner.connections[n];
      assert ServesIn(t, c, n) && Owns(t, c, n);
    }
  }

  predicate SameNode(h: Handler, g: Handler) { h.registered.Some? && h.registered == g.registered }

  /** No two connections of one node are open at once, from the registration of each to its cleanup. */
  ghost predicate NoOverlap(s: State) {
    forall c, d :: 0 <= c < d < |s.handlers| && SameNode(s.handlers[c], s.handlers[d]) ==>
      Left(s.handlers[c]) || Left(s.handlers[d])
  }

  ghost predicate NeverOverlaps(cfg: Config, s: State, actions: seq<Action>)
    decreases |actions|
  {
    NoOverlap(s) && (actions == [] || !Enabled(s, actions[0]) ||
      NeverOverlaps(cfg, Apply(cfg, s, actions[0]), actions[1..]))
  }

  lemma {:induction false} NothingDisplaces(cfg: Config, s: State, actions: seq<Action>, c: nat, n: string)
    requires NeverOverlaps(cfg, s, actions)
    ensures !Displaced(cfg, s, actions, c, n)
    decreases |actions|
  {
    if actions != [] && Enabled(s, actions[0]) {
      assert !Displaces(s, actions[0], c, n);
      hide Apply, Enabled, NoOverlap, Displaces;
      NothingDisplaces(cfg, Apply(cfg, s, actions[0]), actions[1..], c, n);
    }
  }

  /** As long as connections of one node never overlap: sender present if and only if connected. */
  lemma {:induction false} PresentIffConnected(cfg: Config, actions: seq<Action>, t: State, n: string)
    requires Run(cfg, START, actions, t) && NeverOverlaps(cfg, START, actions)
    ensures n in t.inner.connections <==> exists c: nat :: ServesIn(t, c, n)
  {
    SenderPresentIff(cfg, actions, t, n);
    forall c: nat ensures !Displaced(cfg, START, actions, c, n) { NothingDisplaces(cfg, START, actions, c, n); }
    hide Run, Displaced, ServesIn, NeverOverlaps;
  }
}
