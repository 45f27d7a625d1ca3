// An alert acknowledgement is sent once or refused; it is never queued and never repeated.

module BridgeAlerts {
  import opened Base
  import opened TaskQueues
  import opened Bridge
  import opened BridgeTasks
  import Routing

  function FromBit(from: Origin): Offer -> nat { (o: Offer) => if o.origin == from then 1 else 0 }

  function CountFrom(os: seq<Offer>, from: Origin): nat { Sum(FromBit(from), os) }

  function OffersFrom(from: Origin): Handler -> nat { (h: Handler) => CountFrom(h.channel.offers, from) }

  /** Offers of the call on all connections together. */
  function SentBy(s: State, k: nat): nat { Sum(OffersFrom(FromAlert(k)), s.handlers) }

  predicate WentOut(s: State, k: nat) { k < |s.alerts| && s.alerts[k].pc == AlertDone(true) }

  ghost predicate SentOnce(s: State, k: nat) { SentBy(s, k) == if WentOut(s, k) then 1 else 0 }

  lemma CountFromPush(os: seq<Offer>, o: Offer, from: Origin)
    ensures CountFrom(os + [o], from) == CountFrom(os, from) + (if o.origin == from then 1 else 0)
  {
    SumPush(FromBit(from), os, o);
    hide Sum;
  }

  /** One connection is offered `more`. */
  lemma OneOffered(s: State, t: State, c: nat, o: Offer, k: nat)
    requires c < |s.handlers| && |t.handlers| == |s.handlers| && t.handlers == s.handlers[c := t.handlers[c]]
    requires t.handlers[c].channel.offers == s.handlers[c].channel.offers + [o]
    ensures SentBy(t, k) == SentBy(s, k) + (if o.origin == FromAlert(k) then 1 else 0)
  {
    SumUpdate(OffersFrom(FromAlert(k)), s.handlers, c, t.handlers[c]);
    CountFromPush(s.handlers[c].channel.offers, o, FromAlert(k));
    hide Sum, CountFrom;
  }

  /** One connection changes, but is offered nothing. */
  lemma NoneOffered(s: State, t: State, c: nat, k: nat)
    requires c < |s.handlers| && |t.handlers| == |s.handlers| && t.handlers == s.handlers[c := t.handlers[c]]
    requires t.handlers[c].channel.offers == s.handlers[c].channel.offers
    ensures SentBy(t, k) == SentBy(s, k)
  {
    SumUpdate(OffersFrom(FromAlert(k)), s.handlers, c, t.handlers[c]);
    hide Sum, CountFrom;
  }

  lemma OwnOffersNoAlert(cfg: Config, s: State, c: nat, admitted: bool, k: nat)
    requires Enabled(s, HandlerStep(c, admitted)) && PcFits(s.handlers[c])
    ensures SentBy(Apply(cfg, s, HandlerStep(c, admitted)), k) == SentBy(s, k)
  {
    var h, t := s.handlers[c], Apply(cfg, s, HandlerStep(c, admitted));
    OwnEffect(cfg, s.inner, c, h, admitted);
    hide HandlerMove, HandlerReady, SentBy, BeforeSnapshot, PcFits, Rest, RegistrationAck, NodeOf;
    if OwnOffer(cfg, h) == [] {
      assert h.channel.offers + [] == h.channel.offers;
      NoneOffered(s, t, c, k);
    } else {
      OneOffered(s, t, c, OwnOffer(cfg, h)[0], k);
    }
  }

  lemma SentOnceStep(cfg: Config, s: State, a: Action, k: nat)
    requires Enabled(s, a) && Always(s) && SentOnce(s, k)
    ensures SentOnce(Apply(cfg, s, a), k)
  {
    hide SentBy;
    if a.HandlerStep? {
      OwnOffersNoAlert(cfg, s, a.c, a.admitted, k);
      hide HandlerMove, HandlerReady, Always;
    } else if a.SenderStep? {
      hide Always;
      SenderNoAlert(cfg, s, a.i, k);
    } else if a.AlertStep? {
      hide Always;
      AlertCountsItself(cfg, s, a.k, k);
    } else {
      hide Always;
      OtherNoAlert(cfg, s, a, k);
    }
  }

  lemma SenderNoAlert(cfg: Config, s: State, i: nat, k: nat)
    requires SenderEnabled(s, i) && SentOnce(s, k)
    ensures SentOnce(SenderApply(cfg, s, i), k)
  {
    hide SentBy;
    var t := SenderApply(cfg, s, i);
    if s.senders[i].pc.SendLive? {
      OneOffered(s, t, s.senders[i].pc.conn, Offer(FromSender(i), s.senders[i].msg), k);
    } else {
      hide SenderMove;
      NothingMoved(s, t, k);
    }
  }

  lemma AlertCountsItself(cfg: Config, s: State, j: nat, k: nat)
    requires AlertEnabled(s, j) && SentOnce(s, k)
    ensures SentOnce(AlertApply(cfg, s, j), k)
  {
    hide SentBy, AlertAck;
    var t := AlertApply(cfg, s, j);
    if s.alerts[j].pc.AlertSend? {
      OneOffered(s, t, s.alerts[j].pc.conn, Offer(FromAlert(j), AlertAck(cfg, s.alerts[j])), k);
    } else {
      NothingMoved(s, t, k);
    }
  }

  lemma OtherNoAlert(cfg: Config, s: State, a: Action, k: nat)
    requires Enabled(s, a) && !a.HandlerStep? && !a.SenderStep? && !a.AlertStep? && SentOnce(s, k)
    ensures SentOnce(Apply(cfg, s, a), k)
  {
    var t := Apply(cfg, s, a);
    hide SentBy, Routing.ExtractTaskId;
    match a
    case Receive(c, _) => NoneOffered(s, t, c, k);
    case Hangup(c) => NoneOffered(s, t, c, k);
    case WriterStep(c) => NoneOffered(s, t, c, k);
    case WriterFail(c) => NoneOffered(s, t, c, k);
    case Accept => NewcomerOffered(s, t, k);
    case _ => NothingMoved(s, t, k);
  }

  lemma NothingMoved(s: State, t: State, k: nat)
    ensures t.handlers == s.handlers ==> SentBy(t, k) == SentBy(s, k)
  {
  }

  lemma NewcomerOffered(s: State, t: State, k: nat)
    requires t.handlers == s.handlers + [FRESH_HANDLER]
    ensures SentBy(t, k) == SentBy(s, k)
  {
    SumPush(OffersFrom(FromAlert(k)), s.handlers, FRESH_HANDLER);
    assert CountFrom([], FromAlert(k)) == 0;
    hide Sum, CountFrom;
  }

  lemma {:induction false} SentOnceHolds(cfg: Config, s: State, actions: seq<Action>, t: State, k: nat)
    requires Run(cfg, s, actions, t) && Always(s) && SentOnce(s, k)
    ensures SentOnce(t, k)
    decreases |actions|
  {
    if actions != [] {
      AlwaysStep(cfg, s, actions[0]);
      SentOnceStep(cfg, s, actions[0], k);
      hide Apply, Enabled, Always, SentOnce;
      SentOnceHolds(cfg, Apply(cfg, s, actions[0]), actions[1..], t, k);
    }
  }

  /** In every reachable state a `send_alert_ack` has been offered exactly once, over all connections, if it has
      returned and found its node connected, and never otherwise. */
  lemma {:induction false} AlertSentOnceIff(cfg: Config, actions: seq<Action>, t: State, k: nat)
    requires Run(cfg, START, actions, t) && k < |t.alerts|
    ensures SentBy(t, k) == if t.alerts[k].pc == AlertDone(true) then 1 else 0
  {
    NothingSent(k);
    SentOnceHolds(cfg, START, actions, t, k);
    hide Run, SentBy;
  }

  lemma NothingSent(k: nat)
    ensures SentOnce(START, k) && Always(START)
  {
  }
}
