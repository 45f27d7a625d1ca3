// Inbound messages on the bridge path (`route_message` and the mesh subscriber) and the rate limit on
// detections that it enforces end to end.

module Routing {
  import opened Base
  import opened Sapient
  import opened Transforms
  import opened MeshFields
  import opened RateLimit

  function TaskAckStatusOf(status: Option<int>): TaskAckStatus {
    match RawCode(status)
    case 1 => AckAccepted
    case 2 => AckRejected
    case 3 => AckCompleted
    case _ => AckFailed
  }

  function TaskIdOf(id: Option<string>): string { if id.Some? then id.value else "" }

  /** `task_id` of a message to be sent as a task; refused when it carries no task or no id. */
  function ExtractTaskId(msg: SapientMessage): (r: Result<string, SapientError>)
    ensures r.Ok? ==> r.value != ""
  {
    if msg.content.Some? && msg.content.value.ContentTask? then
      (if TaskIdOf(msg.content.value.taskId) == "" then Err(MappingError("task_id"))
       else Ok(TaskIdOf(msg.content.value.taskId)))
    else Err(MappingError("content"))
  }

  /** Exactly the messages with a Task whose id is present and not empty can be sent as tasks. */
  lemma TaskIdIsExtractedIff(msg: SapientMessage, id: string)
    ensures ExtractTaskId(msg) == Ok(id) <==>
      id != "" && exists body :: msg.content == Some(ContentTask(Some(id), body))
  {
    if ExtractTaskId(msg) == Ok(id) {
      assert msg.content == Some(ContentTask(Some(id), msg.content.value.body));
    }
  }

  /** `admitted` is the limiter's answer for this message, or true without a limiter; it is asked for
      detections only. */
  function RouteMessage(g: Geodesy, msg: SapientMessage, sensor: Option<Position>, admitted: bool)
    : (r: Result<SapientUpdate, SapientError>)
    ensures r.Ok? ==> !r.value.NodeDisconnected?
    ensures r.Ok? && r.value.TaskAcknowledged? ==> r.value.commandId == None && r.value.nodeId == msg.Node()
    ensures r.Ok? && r.value.Detected? ==>
      admitted && msg.content.Some? && msg.content.value.ContentDetectionReport? && r.value.nodeId == msg.Node()
  {
    var node := msg.Node();
    match msg.content
    case Some(ContentRegistration(reg)) => Ok(Registered(node, FromRegistration(node, reg)))
    case Some(ContentStatusReport(sr)) =>
      var (state, delta) := FromStatusReport(g, node, sr);
      Ok(StatusUpdated(node, state, delta))
    case Some(ContentDetectionReport(dr)) =>
      if !admitted then Ok(Ignored)
      else (match FromDetectionReport(g, node, sensor, dr)
            case Ok(track) => Ok(Detected(node, track))
            case Err(e) => Err(e))
    case Some(ContentAlert) => Ok(Alerted(node))
    case Some(ContentTaskAck(id, status)) =>
      Ok(TaskAcknowledged(node, TaskIdOf(id), None, TaskAckStatusOf(status)))
    case Some(ContentAlertAck(_)) => Ok(AlertAcknowledged(node))
    case _ => Ok(Ignored)
  }

  predicate IsDetection(m: SapientMessage) { m.content.Some? && m.content.value.ContentDetectionReport? }

  predicate HasContent(msg: SapientMessage, content: Content -> bool) {
    msg.content.Some? && content(msg.content.value)
  }

  /** Which update a message becomes: each kind exactly for its own content, detections exactly when admitted
      and placed, an error exactly for an admitted detection that cannot be placed; and every update that
      names a node names the sender. */
  lemma RouteYields(g: Geodesy, msg: SapientMessage, sensor: Option<Position>, admitted: bool)
    ensures var r := RouteMessage(g, msg, sensor, admitted);
      (r.Err? <==> IsDetection(msg) && admitted && TrackPositionOf(g, sensor, msg.content.value.detection).Err?) &&
      (r.Ok? ==>
        (r.value.Registered? <==> HasContent(msg, (c: Content) => c.ContentRegistration?)) &&
        (r.value.StatusUpdated? <==> HasContent(msg, (c: Content) => c.ContentStatusReport?)) &&
        (r.value.Detected? <==> IsDetection(msg) && admitted) &&
        (r.value.Alerted? <==> HasContent(msg, (c: Content) => c.ContentAlert?)) &&
        (r.value.AlertAcknowledged? <==> HasContent(msg, (c: Content) => c.ContentAlertAck?)) &&
        (r.value.TaskAcknowledged? <==> HasContent(msg, (c: Content) => c.ContentTaskAck?)) &&
        !r.value.NodeDisconnected? && (r.value.Ignored? || r.value.nodeId == msg.Node()))
  {
    hide TrackPositionOf, FromStatusReport, FromRegistration;
  }

  /** An acknowledgement of task `id` is reported under its sender, without a command, as what its code says:
      1 accepted, 2 rejected, 3 completed, and anything else, or nothing, failed. */
  lemma AcknowledgementMeans(g: Geodesy, msg: SapientMessage, sensor: Option<Position>, admitted: bool)
    ensures forall id: string, code: Option<int> :: msg.content == Some(ContentTaskAck(Some(id), code)) ==>
      RouteMessage(g, msg, sensor, admitted) == Ok(TaskAcknowledged(msg.Node(), id, None,
        if code == Some(1) then AckAccepted else if code == Some(2) then AckRejected
        else if code == Some(3) then AckCompleted else AckFailed))
  {
  }

  /** What the other updates carry, all under the sender: a registration its advertisement, ready; a status
      report the place and health it reports and, with a field of view or a mode, the status of its code; a
      detection that passes the limiter the track of its object, wherever it can be placed. */
  lemma UpdateCarries(g: Geodesy, msg: SapientMessage, sensor: Option<Position>, admitted: bool)
    ensures var r, node := RouteMessage(g, msg, sensor, admitted), msg.Node();
      match msg.content
      case Some(ContentRegistration(reg)) =>
        r == Ok(Registered(node, CapabilityAdvertisement(node, CapabilityNames(reg.nodeTypes), OpReady)))
      case Some(ContentStatusReport(sr)) =>
        r.Ok? && r.value.StatusUpdated? && r.value.nodeId == node &&
        r.value.state.position == ReportPlace(g, sr) && r.value.state.health == HealthOfCode(sr.system) &&
        r.value.state.fuelMinutes == Clamped(if sr.powerLevel.Some? then sr.powerLevel.value else 0) &&
        r.value.capabilityDelta == (if sr.fieldOfView || sr.mode
          then Some(CapabilityAdvertisement(node, [], StatusOfCode(sr.system))) else None)
      case Some(ContentDetectionReport(dr)) =>
        if !admitted then r == Ok(Ignored)
        else if TrackPositionOf(g, sensor, dr).Err? then r == Err(TrackPositionOf(g, sensor, dr).error)
        else
          r.Ok? && r.value.Detected? && r.value.nodeId == node &&
          Some(r.value.track.trackId) == (if dr.objectId.Some? then dr.objectId else Some("")) &&
          r.value.track.position == Some(TrackPositionOf(g, sensor, dr).value) &&
          r.value.track.source.Some? && r.value.track.source.value.nodeId == node
      case _ => true
  {
    if msg.content.Some? && msg.content.value.ContentStatusReport? {
      StatusReportMeans(g, msg.Node(), msg.content.value.status);
      hide FromStatusReport;
    }
    hide TrackPositionOf, CapabilityNames;
  }

  /** A message that cannot be sent as a task is refused for lack of a task, or of an id. */
  lemma RefusalMeans(msg: SapientMessage)
    ensures ExtractTaskId(msg).Err? ==>
      ExtractTaskId(msg).error ==
        if exists id, body :: msg.content == Some(ContentTask(id, body)) then MappingError("task_id")
        else MappingError("content")
  {
    if ExtractTaskId(msg) == Err(MappingError("task_id")) {
      assert msg.content == Some(ContentTask(msg.content.value.taskId, msg.content.value.body));
    }
  }

  // ---- the mesh subscriber ----

  datatype Collection = Tracks | Platforms

  datatype Publication = Publication(collection: Collection, id: string, fields: Fields)

  /** What the subscriber publishes for one update, if anything. */
  function PublishedFor(u: SapientUpdate): seq<Publication> {
    match u
    case Registered(_, adv) => [Publication(Platforms, adv.nodeId, PlatformFields(adv, None))]
    case StatusUpdated(node, state, delta) =>
      var adv := DeltaOrDefault(node, delta);
      [Publication(Platforms, adv.nodeId, PlatformFields(adv, Some(state)))]
    case Detected(_, track) => [Publication(Tracks, track.trackId, TrackFields(track))]
    case _ => []
  }

  function Published(us: seq<SapientUpdate>): seq<Publication> {
    if us == [] then [] else Published(us[..|us| - 1]) + PublishedFor(us[|us| - 1])
  }

  method RunBridgeSubscriber(updates: seq<SapientUpdate>) returns (published: seq<Publication>)
    ensures published == Published(updates)
  {
    published := [];
    for i := 0 to |updates|
      invariant published == Published(updates[..i])
    {
      hide PlatformFields, TrackFields;
      assert updates[..i + 1][..i] == updates[..i];
      match updates[i]
      case Registered(_, advertisement) =>
        var id, fields := PlatformToFields(advertisement, None);
        published := published + [Publication(Platforms, id, fields)];
      case StatusUpdated(node, state, delta) =>
        var advertisement := if delta.Some? then delta.value else CapabilityAdvertisement(node, [], OpUnspecified);
        var id, fields := PlatformToFields(advertisement, Some(state));
        published := published + [Publication(Platforms, id, fields)];
      case Detected(_, track) =>
        var id, fields := TrackToFields(track);
        published := published + [Publication(Tracks, id, fields)];
      case _ =>
    }
    assert updates[..|updates|] == updates;
  }

  // ---- the limiter in front of every connection ----

  /** A message routed at an instant, by whichever connection. */
  datatype Arrival = Arrival(at: real, msg: SapientMessage, sensor: Option<Position>)

  /** The limiter is consulted for detections only, in the order the arrivals are routed. */
  function RequestsOf(as_: seq<Arrival>): seq<Request> {
    if as_ == [] then []
    else
      var a := as_[|as_| - 1];
      RequestsOf(as_[..|as_| - 1]) + (if IsDetection(a.msg) then [Request(a.msg.Node(), a.at)] else [])
  }

  /** Decision for the newest arrival. */
  function AdmitLast(c: RateLimitConfig, as_: seq<Arrival>): bool
    requires as_ != []
  {
    if !IsDetection(as_[|as_| - 1].msg) then true
    else
      var d := RunLimiter(c, RequestsOf(as_)).0;
      if d == [] then true else d[|d| - 1]
  }

  function UpdateOf(g: Geodesy, c: RateLimitConfig, as_: seq<Arrival>): Result<SapientUpdate, SapientError>
    requires as_ != []
  {
    var a := as_[|as_| - 1];
    RouteMessage(g, a.msg, a.sensor, AdmitLast(c, as_))
  }

  /** The newest arrival's instant, if it was routed to `Detected` for `node`. */
  ghost function NewDetection(g: Geodesy, c: RateLimitConfig, as_: seq<Arrival>, node: string): seq<real>
    requires as_ != []
  {
    var u := UpdateOf(g, c, as_);
    if u.Ok? && u.value.Detected? && u.value.nodeId == node then [as_[|as_| - 1].at] else []
  }

  /** Instants at which routing produced `Detected` for `node`. */
  ghost function DetectedTimes(g: Geodesy, c: RateLimitConfig, as_: seq<Arrival>, node: string): seq<real> {
    if as_ == [] then []
    else DetectedTimes(g, c, as_[..|as_| - 1], node) + NewDetection(g, c, as_, node)
  }

  ghost predicate ArrivalsInOrder(as_: seq<Arrival>) {
    forall i, j :: 0 <= i < j < |as_| ==> as_[i].at <= as_[j].at
  }

  lemma {:induction false} RequestsFollowArrivals(as_: seq<Arrival>)
    requires ArrivalsInOrder(as_)
    ensures RequestsInOrder(RequestsOf(as_))
    ensures forall r :: r in RequestsOf(as_) ==> exists k :: 0 <= k < |as_| && as_[k].at == r.at
  {
    if as_ != [] {
      var before, last := as_[..|as_| - 1], as_[|as_| - 1];
      RequestsFollowArrivals(before);
      var rs := RequestsOf(before);
      forall r | r in rs ensures r.at <= last.at && exists k :: 0 <= k < |as_| && as_[k].at == r.at {
        var k :| 0 <= k < |before| && before[k].at == r.at;
        assert as_[k].at == r.at;
      }
      assert as_[|as_| - 1].at == last.at;
      assert forall k :: 0 <= k < |rs| ==> rs[k] in rs;
    }
  }

  /** Counting is over a subsequence: fewer instants, fewer in the window. */
  lemma {:induction false} CountAppend(ts: seq<real>, us: seq<real>, from: real, w: real)
    ensures CountWithin(ts + us, from, w) == CountWithin(ts, from, w) + CountWithin(us, from, w)
  {
    if ts == [] {
      assert ts + us == us;
    } else {
      CountAppend(ts[1..], us, from, w);
      assert (ts + us)[1..] == ts[1..] + us;
    }
  }

  lemma {:induction false} DetectedAreAdmitted(
    g: Geodesy, c: RateLimitConfig, as_: seq<Arrival>, node: string, from: real, w: real)
    requires c.Enabled() && ArrivalsInOrder(as_)
    ensures CountWithin(DetectedTimes(g, c, as_, node), from, w)
         <= CountWithin(Admissions(c, OfNode(node, RequestsOf(as_))), from, w)
  {
    if as_ != [] {
      var before := as_[..|as_| - 1];
      DetectedAreAdmitted(g, c, before, node, from, w);
      NewDetectionIsAdmitted(g, c, as_, node);
      hide NewDetection, Admissions, RequestsOf, OfNode, CountWithin;
      CountAppend(DetectedTimes(g, c, before, node), NewDetection(g, c, as_, node), from, w);
      CountAppend(Admissions(c, OfNode(node, RequestsOf(before))), NewDetection(g, c, as_, node), from, w);
      CountAppend(Admissions(c, OfNode(node, RequestsOf(before))), [as_[|as_| - 1].at], from, w);
    }
  }

  lemma NewDetectionIsAdmitted(g: Geodesy, c: RateLimitConfig, as_: seq<Arrival>, node: string)
    requires c.Enabled() && ArrivalsInOrder(as_) && as_ != []
    ensures var was := Admissions(c, OfNode(node, RequestsOf(as_[..|as_| - 1])));
      var now := Admissions(c, OfNode(node, RequestsOf(as_)));
      now == was + NewDetection(g, c, as_, node) ||
      (NewDetection(g, c, as_, node) == [] && now == was + [as_[|as_| - 1].at])
  {
    hide RouteMessage, Fits, AdmitLast, RunLimiter;
    var a, rs := as_[|as_| - 1], RequestsOf(as_[..|as_| - 1]);
    var mine := OfNode(node, rs);
    if IsDetection(a.msg) {
      DetectionIsChecked(c, as_);
      if a.msg.Node() == node { assert (mine + [a.at])[..|mine|] == mine; }
    } else {
      assert RequestsOf(as_) == rs;
    }
  }

  /** A detection adds one request, of its own node. */
  lemma DetectionIsRequested(as_: seq<Arrival>, other: string)
    requires as_ != [] && IsDetection(as_[|as_| - 1].msg)
    ensures var a, rs := as_[|as_| - 1], RequestsOf(as_[..|as_| - 1]);
      RequestsOf(as_) == rs + [Request(a.msg.Node(), a.at)] &&
      OfNode(other, RequestsOf(as_)) == if other == a.msg.Node() then OfNode(other, rs) + [a.at] else OfNode(other, rs)
  {
    var a, rs := as_[|as_| - 1], RequestsOf(as_[..|as_| - 1]);
    var all := rs + [Request(a.msg.Node(), a.at)];
    assert all[..|rs|] == rs && RequestsOf(as_) == all;
  }

  /** A detection is admitted exactly when it fits the earlier admissions of its own node. */
  lemma {:induction false} DetectionIsChecked(c: RateLimitConfig, as_: seq<Arrival>)
    requires c.Enabled() && ArrivalsInOrder(as_) && as_ != [] && IsDetection(as_[|as_| - 1].msg)
    ensures var a, rs := as_[|as_| - 1], RequestsOf(as_[..|as_| - 1]);
      var node := a.msg.Node();
      RequestsOf(as_) == rs + [Request(node, a.at)] && OfNode(node, RequestsOf(as_)) == OfNode(node, rs) + [a.at] &&
      (forall other :: other != node ==> OfNode(other, RequestsOf(as_)) == OfNode(other, rs)) &&
      (AdmitLast(c, as_) <==> Fits(c, Admissions(c, OfNode(node, rs)), a.at))
  {
    RequestsFollowArrivals(as_);
    hide Fits, RunLimiter, Admissions, RequestsOf, OfNode, Checked, ArrivalsInOrder;
    var a, rs := as_[|as_| - 1], RequestsOf(as_[..|as_| - 1]);
    DetectionIsRequested(as_, a.msg.Node());
    forall other: string | other != a.msg.Node() ensures OfNode(other, RequestsOf(as_)) == OfNode(other, rs) {
      DetectionIsRequested(as_, other);
    }
    var r := Request(a.msg.Node(), a.at);
    EarlierRequests(rs, r);
    LimiterStep(c, rs, r);
  }

  lemma EarlierRequests(rs: seq<Request>, r: Request)
    requires RequestsInOrder(rs + [r])
    ensures RequestsInOrder(rs) && forall k :: 0 <= k < |rs| ==> rs[k].at <= r.at
  {
    var all := rs + [r];
    assert all[|rs|] == r && forall k :: 0 <= k < |rs| ==> all[k] == rs[k];
  }

  /** End to end: over any interleaving of every node's messages on every connection, the `Detected` updates
      of one node in any window of length w number at most burst + rate * w. */
  lemma {:induction false} BoundedDetections(
    g: Geodesy, c: RateLimitConfig, as_: seq<Arrival>, node: string, from: real, w: real)
    requires c.Enabled() && ArrivalsInOrder(as_) && w >= 0.0
    ensures CountWithin(DetectedTimes(g, c, as_, node), from, w) as real
         <= c.burstSize as real + c.maxPerSecond * w
  {
    RequestsFollowArrivals(as_);
    OfNodeInOrder(node, RequestsOf(as_));
    DetectedAreAdmitted(g, c, as_, node, from, w);
    WindowBound(c, OfNode(node, RequestsOf(as_)), from, w);
  }

  lemma {:induction false} OfNodeInOrder(node: string, rs: seq<Request>)
    requires RequestsInOrder(rs)
    ensures InTimeOrder(OfNode(node, rs))
    ensures forall t :: t in OfNode(node, rs) ==> exists k :: 0 <= k < |rs| && rs[k].at == t
  {
    if rs != [] {
      var before, last := rs[..|rs| - 1], rs[|rs| - 1];
      OfNodeInOrder(node, before);
      var ts := OfNode(node, before);
      forall t | t in ts ensures t <= last.at && exists k :: 0 <= k < |rs| && rs[k].at == t {
        var k :| 0 <= k < |before| && before[k].at == t;
        assert rs[k].at == t;
      }
      assert rs[|rs| - 1].at == last.at;
      assert forall k :: 0 <= k < |ts| ==> ts[k] in ts;
    }
  }
}
