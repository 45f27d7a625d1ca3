// The translator path onto the mesh: a codec with a cache of sensor positions, and the DLMM receive loop
// that publishes what it decodes.

module Translation {
  import opened Base
  import opened Sapient
  import opened Transforms
  import opened MeshFields
  import opened Routing

  datatype Document = Document(id: Option<string>, fields: Fields)

  type Cache = map<string, Position>

  function CollectionFor(msg: SapientMessage): Option<Collection> {
    match msg.content
    case Some(ContentDetectionReport(_)) => Some(Tracks)
    case Some(ContentRegistration(_)) => Some(Platforms)
    case Some(ContentStatusReport(_)) => Some(Platforms)
    case _ => None
  }

  // ---- inbound ----

  /** The cache after `decode_inbound` has seen `msg`. */
  function Remember(g: Geodesy, cache: Cache, msg: SapientMessage): Cache {
    match msg.content
    case Some(ContentStatusReport(sr)) =>
      if ReportedPosition(g, sr).Some? then cache[msg.Node() := ReportedPosition(g, sr).value] else cache
    case _ => cache
  }

  function Lookup(cache: Cache, node: string): Option<Position> {
    if node in cache then Some(cache[node]) else None
  }

  /** What `decode_inbound` returns for `msg`. */
  function Decoded(g: Geodesy, cache: Cache, msg: SapientMessage): Result<Option<Document>, SapientError> {
    var node := msg.Node();
    match msg.content
    case Some(ContentRegistration(reg)) =>
      var adv := FromRegistration(node, reg);
      Ok(Some(Document(Some(adv.nodeId), PlatformFields(adv, None))))
    case Some(ContentStatusReport(sr)) =>
      var (state, delta) := FromStatusReport(g, node, sr);
      var adv := DeltaOrDefault(node, delta);
      Ok(Some(Document(Some(adv.nodeId), PlatformFields(adv, Some(state)))))
    case Some(ContentDetectionReport(dr)) =>
      (match FromDetectionReport(g, node, Lookup(cache, node), dr)
       case Ok(track) => Ok(Some(Document(Some(track.trackId), TrackFields(track))))
       case Err(e) => Err(e))
    case _ => Ok(None)
  }

  function CacheAfter(g: Geodesy, run: seq<SapientMessage>): Cache {
    if run == [] then map[] else Remember(g, CacheAfter(g, run[..|run| - 1]), run[|run| - 1])
  }

  /** Message `i` is the last StatusReport of `node` whose location resolves. */
  ghost predicate LastFix(g: Geodesy, run: seq<SapientMessage>, node: string, i: nat) {
    i < |run| && FixOf(g, run[i], node).Some? && forall k :: i < k < |run| ==> FixOf(g, run[k], node).None?
  }

  function FixOf(g: Geodesy, msg: SapientMessage, node: string): Option<Position> {
    match msg.content
    case Some(ContentStatusReport(sr)) => if msg.Node() == node then ReportPlace(g, sr) else None
    case _ => None
  }

  /** The cache agrees with history: a node is cached with the position of its own last resolvable report,
      and is not cached exactly when there was none. */
  lemma {:induction false} CacheIsLastFix(g: Geodesy, run: seq<SapientMessage>, node: string)
    ensures node in CacheAfter(g, run) <==> exists i: nat :: LastFix(g, run, node, i)
    ensures forall i: nat :: LastFix(g, run, node, i) ==>
      Lookup(CacheAfter(g, run), node) == FixOf(g, run[i], node)
  {
    hide ReportedPosition, ReportPlace;
    if run != [] {
      var n := |run| - 1;
      if run[n].content.Some? && run[n].content.value.ContentStatusReport? {
        ReportedIsPlace(g, run[n].content.value.status);
      }
      var before := run[..n];
      CacheIsLastFix(g, before, node);
      if FixOf(g, run[n], node).Some? {
        assert LastFix(g, run, node, n);
      } else {
        assert Lookup(CacheAfter(g, run), node) == Lookup(CacheAfter(g, before), node);
        hide FixOf;
        assert forall i :: 0 <= i < n ==> before[i] == run[i];
        forall i: nat ensures LastFix(g, run, node, i) <==> LastFix(g, before, node, i) {
          if LastFix(g, before, node, i) {
            forall k | i < k < |run| ensures FixOf(g, run[k], node).None? { if k < n { assert before[k] == run[k]; } }
          }
          if LastFix(g, run, node, i) {
            forall k | i < k < |before| ensures FixOf(g, before[k], node).None? { assert before[k] == run[k]; }
          }
        }
      }
    }
  }

  /** A range-bearing detection is placed from that node's last fix, and fails for want of a position exactly
      when the node never had one. */
  lemma {:induction false} RangeBearingUsesLastFix(
    g: Geodesy, run: seq<SapientMessage>, msg: SapientMessage, dr: DetectionReport)
    requires msg.content == Some(ContentDetectionReport(dr)) && NeedsSensor(g, dr)
    ensures Decoded(g, CacheAfter(g, run), msg).Err? <==> !exists i: nat :: LastFix(g, run, msg.Node(), i)
    ensures forall i: nat :: LastFix(g, run, msg.Node(), i) ==>
      var r := NormalizeRangeBearing(g, dr.location.value.rangeBearing).value;
      var p := g.offset(r.0, r.1, r.2, FixOf(g, run[i], msg.Node()).value);
      Decoded(g, CacheAfter(g, run), msg).value.Some? &&
      Decoded(g, CacheAfter(g, run), msg).value.value.fields[Lat] == Num(p.latitude) &&
      Decoded(g, CacheAfter(g, run), msg).value.value.fields[Lon] == Num(p.longitude)
  {
    CacheIsLastFix(g, run, msg.Node());
    hide NormalizeRangeBearing, FixOf, CacheAfter;
  }

  class SapientTranslator {
    var sensorPositions: Cache
    const geodesy: Geodesy
    /** Every message decoded so far. */
    ghost var history: seq<SapientMessage>

    ghost predicate Valid()
      reads this
    {
      sensorPositions == CacheAfter(geodesy, history)
    }

    constructor (geodesy: Geodesy)
      ensures Valid() && history == [] && this.geodesy == geodesy
    {
      this.geodesy := geodesy;
      sensorPositions := map[];
      history := [];
    }

    method CachePosition(node: string, position: Position)
      modifies this`sensorPositions
      ensures sensorPositions == old(sensorPositions)[node := position]
    {
      sensorPositions := sensorPositions[node := position];
    }

    method CachedPosition(node: string) returns (p: Option<Position>)
      requires Valid()
      ensures p.None? <==> !exists i: nat :: LastFix(geodesy, history, node, i)
      ensures forall i: nat :: LastFix(geodesy, history, node, i) ==> p == FixOf(geodesy, history[i], node)
    {
      p := if node in sensorPositions then Some(sensorPositions[node]) else None;
      CacheIsLastFix(geodesy, history, node);
    }

    /** `wire` is the parsed message, or None when the bytes do not parse. */
    method DecodeInbound(wire: Option<SapientMessage>) returns (r: Result<Option<Document>, SapientError>)
      requires Valid()
      modifies this
      ensures Valid()
      ensures wire.None? ==> r == Err(DecodeError) && history == old(history) && sensorPositions == old(sensorPositions)
      ensures wire.Some? ==>
        history == old(history) + [wire.value] && r == Decoded(geodesy, old(sensorPositions), wire.value)
    {
      hide PlatformFields, TrackFields, FromStatusReport;
      if wire.None? {
        return Err(DecodeError);
      }
      var msg := wire.value;
      var node := msg.Node();
      assert (history + [msg])[..|history|] == history;
      history := history + [msg];
      match msg.content
      case Some(ContentRegistration(reg)) =>
        var id, fields := PlatformToFields(FromRegistration(node, reg), None);
        r := Ok(Some(Document(Some(id), fields)));
      case Some(ContentStatusReport(sr)) =>
        var (state, delta) := FromStatusReport(geodesy, node, sr);
        StatePosition(geodesy, node, sr);
        if state.position.Some? {
          CachePosition(node, state.position.value);
        }
        var id, fields := PlatformToFields(DeltaOrDefault(node, delta), Some(state));
        r := Ok(Some(Document(Some(id), fields)));
      case Some(ContentDetectionReport(dr)) =>
        var sensor := if node in sensorPositions then Some(sensorPositions[node]) else None;
        var mapped := FromDetectionReport(geodesy, node, sensor, dr);
        if mapped.Err? {
          return Err(mapped.error);
        }
        var id, fields := TrackToFields(mapped.value);
        r := Ok(Some(Document(Some(id), fields)));
      case _ =>
        r := Ok(None);
    }
  }

  lemma StatePosition(g: Geodesy, node: string, sr: StatusReport)
    ensures FromStatusReport(g, node, sr).0.position == ReportedPosition(g, sr)
  {
  }

  /** A platform document is the sender's own; a track document is the detected object's. */
  lemma DocumentIds(g: Geodesy, cache: Cache, msg: SapientMessage)
    ensures var r := Decoded(g, cache, msg);
      r.Ok? && r.value.Some? ==>
        match msg.content
        case Some(ContentDetectionReport(dr)) =>
          r.value.value.id == (if dr.objectId.Some? then dr.objectId else Some(""))
        case _ => r.value.value.id == Some(msg.Node())
  {
    hide PlatformFields, TrackFields, TrackPositionOf, ReportedPosition;
  }

  // ---- the two paths onto the mesh ----

  /** What the receive loop publishes for one message. */
  function TranslatorPublishes(g: Geodesy, cache: Cache, msg: SapientMessage): seq<Publication> {
    if CollectionFor(msg).None? then []
    else match Decoded(g, cache, msg)
      case Ok(Some(doc)) =>
        (if doc.id.Some? then [Publication(CollectionFor(msg).value, doc.id.value, doc.fields)] else [])
      case _ => []
  }

  function TranslatorPath(g: Geodesy, run: seq<SapientMessage>): seq<Publication> {
    if run == [] then []
    else
      var before := run[..|run| - 1];
      TranslatorPath(g, before) + TranslatorPublishes(g, CacheAfter(g, before), run[|run| - 1])
  }

  /** The bridge without a limiter: it never stores a sensor position. */
  function BridgePublishes(g: Geodesy, msg: SapientMessage): seq<Publication> {
    match RouteMessage(g, msg, None, true)
    case Ok(u) => PublishedFor(u)
    case Err(_) => []
  }

  function BridgePath(g: Geodesy, run: seq<SapientMessage>): seq<Publication> {
    if run == [] then [] else BridgePath(g, run[..|run| - 1]) + BridgePublishes(g, run[|run| - 1])
  }

  /** A well-formed range-bearing detection from a node whose position the translator has cached. */
  predicate OnlyTranslatorPlaces(g: Geodesy, cache: Cache, msg: SapientMessage) {
    msg.content.Some? && msg.content.value.ContentDetectionReport? &&
    NeedsSensor(g, msg.content.value.detection) && msg.Node() in cache
  }

  lemma OneMessageOnBothPaths(g: Geodesy, cache: Cache, msg: SapientMessage)
    ensures if OnlyTranslatorPlaces(g, cache, msg)
      then |TranslatorPublishes(g, cache, msg)| == 1 && BridgePublishes(g, msg) == []
      else TranslatorPublishes(g, cache, msg) == BridgePublishes(g, msg)
  {
    hide PlatformFields, TrackFields, FromStatusReport, LocationToTrackPosition, NormalizeRangeBearing;
  }

  ghost predicate NeverOnlyTranslator(g: Geodesy, run: seq<SapientMessage>) {
    forall k :: 0 <= k < |run| ==> !OnlyTranslatorPlaces(g, CacheAfter(g, run[..k]), run[k])
  }

  lemma {:induction false} NeverOnlyTranslatorStep(g: Geodesy, run: seq<SapientMessage>)
    requires run != []
    ensures var n := |run| - 1;
      NeverOnlyTranslator(g, run) <==>
        NeverOnlyTranslator(g, run[..n]) && !OnlyTranslatorPlaces(g, CacheAfter(g, run[..n]), run[n])
  {
    hide OnlyTranslatorPlaces, CacheAfter;
    var n := |run| - 1;
    var before := run[..n];
    forall k | 0 <= k < n
      ensures OnlyTranslatorPlaces(g, CacheAfter(g, run[..k]), run[k])
         <==> OnlyTranslatorPlaces(g, CacheAfter(g, before[..k]), before[k])
    {
      assert before[..k] == run[..k];
    }
  }

  /** The two integrations publish the same collections, ids and fields in the same order exactly when the
      run holds no range-bearing detection that the translator can place; the bridge never places one. */
  lemma {:induction false} PathsAgreeIff(g: Geodesy, run: seq<SapientMessage>)
    ensures TranslatorPath(g, run) == BridgePath(g, run) <==> NeverOnlyTranslator(g, run)
    ensures |TranslatorPath(g, run)| >= |BridgePath(g, run)|
    ensures |TranslatorPath(g, run)| == |BridgePath(g, run)| ==> TranslatorPath(g, run) == BridgePath(g, run)
  {
    if run != [] {
      var before := run[..|run| - 1];
      PathsAgreeIff(g, before);
      NeverOnlyTranslatorStep(g, run);
      OneMessageOnBothPaths(g, CacheAfter(g, before), run[|run| - 1]);
      hide NeverOnlyTranslator, OnlyTranslatorPlaces, TranslatorPublishes, BridgePublishes, CacheAfter;
    }
  }

  // ---- outbound, and one hop ----

  function NumberAt(fs: Fields, f: FieldName): Option<real> {
    if f in fs && fs[f].Num? then Some(fs[f].n) else None
  }

  function TextAt(fs: Fields, f: FieldName): Option<string> {
    if f in fs && fs[f].Str? then Some(fs[f].s) else None
  }

  /** A `tracks` document as a DetectionReport in degrees and metres; None without id, lat or lon. */
  function EncodeOutbound(doc: Document, collection: Option<Collection>, localWireId: Option<string>)
    : Option<SapientMessage>
  {
    if collection != Some(Tracks) || doc.id.None? || NumberAt(doc.fields, Lat).None? || NumberAt(doc.fields, Lon).None?
    then None
    else
      var classification :=
        if TextAt(doc.fields, SapientClassification).None? then []
        else [Classification(TextAt(doc.fields, SapientClassification), NumberAt(doc.fields, SapientConfidence))];
      var location := Location(NumberAt(doc.fields, Lon), NumberAt(doc.fields, Lat),
                               Some(OrZero(NumberAt(doc.fields, Hae))), Some(1), None);
      Some(SapientMessage(localWireId, None, Some(ContentDetectionReport(
        DetectionReport(None, doc.id, Some(AtLocation(location)), classification)))))
  }

  /** Exactly the track documents with an id and a numeric position are sent, as a detection under the local
      wire id of the object with that id, at that place in degrees and metres. */
  lemma EncodedMeans(doc: Document, collection: Option<Collection>, localWireId: Option<string>)
    ensures EncodeOutbound(doc, collection, localWireId).Some? <==>
      collection == Some(Tracks) && doc.id.Some? &&
      exists lat, lon :: NumberAt(doc.fields, Lat) == Some(lat) && NumberAt(doc.fields, Lon) == Some(lon)
    ensures EncodeOutbound(doc, collection, localWireId).Some? ==>
      var msg := EncodeOutbound(doc, collection, localWireId).value;
      msg.nodeId == localWireId && msg.destinationId.None? && msg.content.Some? &&
      msg.content.value.ContentDetectionReport? &&
      var dr := msg.content.value.detection;
      (forall kind :: TextAt(doc.fields, SapientClassification) == Some(kind) <==>
        dr.classification == [Classification(Some(kind), NumberAt(doc.fields, SapientConfidence))]) &&
      (TextAt(doc.fields, SapientClassification).None? ==> dr.classification == []) &&
      dr.reportId.None? && dr.objectId == doc.id && dr.location.Some? && dr.location.value.AtLocation? &&
      var loc := dr.location.value.location;
      loc.x == NumberAt(doc.fields, Lon) && loc.y == NumberAt(doc.fields, Lat) && loc.coordinateSystem == Some(1) &&
      loc.z == (if NumberAt(doc.fields, Hae).Some? then NumberAt(doc.fields, Hae) else Some(0.0))
  {
    if EncodeOutbound(doc, collection, localWireId).Some? {
      assert NumberAt(doc.fields, Lat) == Some(NumberAt(doc.fields, Lat).value);
    }
  }

  function OneHop(g: Geodesy, cache: Cache, doc: Document, wireId: Option<string>): Option<Document> {
    match EncodeOutbound(doc, Some(Tracks), wireId)
    case None => None
    case Some(msg) =>
      (match Decoded(g, cache, msg)
       case Ok(d) => d
       case Err(_) => None)
  }

  /** Encoding a track document and decoding it keeps id, latitude, longitude, altitude and any non-empty
      classification, whatever the cache. */
  lemma HopPreserves(g: Geodesy, cache: Cache, doc: Document, wireId: Option<string>)
    requires EncodeOutbound(doc, Some(Tracks), wireId).Some?
    ensures var d := OneHop(g, cache, doc, wireId);
      d.Some? && d.value.id == doc.id &&
      NumberAt(d.value.fields, Lat) == NumberAt(doc.fields, Lat) &&
      NumberAt(d.value.fields, Lon) == NumberAt(doc.fields, Lon) &&
      OrZero(NumberAt(d.value.fields, Hae)) == OrZero(NumberAt(doc.fields, Hae)) &&
      (forall s :: s != "" && TextAt(doc.fields, SapientClassification) == Some(s) ==>
         TextAt(d.value.fields, SapientClassification) == Some(s)) &&
      EncodeOutbound(d.value, Some(Tracks), wireId).Some?
  {
  }

  /** One hop is a normal form, except for a document with an empty classification and a non-zero
      confidence: the confidence outlives the classification by one hop. */
  lemma HopIsIdempotentIff(g: Geodesy, cache: Cache, doc: Document, wireId: Option<string>)
    requires EncodeOutbound(doc, Some(Tracks), wireId).Some?
    ensures var d := OneHop(g, cache, doc, wireId);
      d.Some? &&
      (OneHop(g, cache, d.value, wireId) == d <==>
        !(TextAt(doc.fields, SapientClassification) == Some("") &&
          OrZero(NumberAt(doc.fields, SapientConfidence)) != 0.0))
  {
    HopPreserves(g, cache, doc, wireId);
    var d := OneHop(g, cache, doc, wireId).value;
    HopFields(g, cache, doc, wireId);
    HopFields(g, cache, d, wireId);
    hide OneHop, EncodeOutbound;
    var e := OneHop(g, cache, d, wireId).value;
    assert d.fields[SapientConfidence] == Num(if TextAt(doc.fields, SapientClassification).Some?
      then OrZero(NumberAt(doc.fields, SapientConfidence)) else 0.0);
    assert e.fields[SapientConfidence] == Num(if TextAt(d.fields, SapientClassification).Some?
      then OrZero(NumberAt(d.fields, SapientConfidence)) else 0.0);
  }

  lemma HopFields(g: Geodesy, cache: Cache, doc: Document, wireId: Option<string>)
    requires EncodeOutbound(doc, Some(Tracks), wireId).Some?
    ensures var cls := TextAt(doc.fields, SapientClassification);
      var node := if wireId.Some? then wireId.value else "";
      OneHop(g, cache, doc, wireId) == Some(Document(doc.id, TrackFields(Track(doc.id.value,
        if cls.Some? then cls.value else "",
        if cls.Some? then OrZero(NumberAt(doc.fields, SapientConfidence)) else 0.0,
        Some(Position(NumberAt(doc.fields, Lat).value, NumberAt(doc.fields, Lon).value,
                      OrZero(NumberAt(doc.fields, Hae)))),
        Some(TrackSource(node, "")), None, 1))))
  {
    hide TrackFields;
  }
}
