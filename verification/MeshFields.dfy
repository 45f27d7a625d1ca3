// Flat field projections of tracks and platforms, and the document they build up under a field-wise
// last-writer-wins merge.

module MeshFields {
  import opened Base
  import opened Sapient
  import opened Transforms

  /** The field names; `Foreign` is any field another producer may have set. */
  datatype FieldName =
    | Lat | Lon | Hae | TimestampMs | Capabilities | OperationalState | Health | Phase
    | SapientClassification | SapientConfidence | SapientSourceNodeId
    | Foreign(name: string)

  datatype Value = Str(s: string) | Num(n: real) | Int64(i: int) | Names(names: seq<string>)

  type Fields = map<FieldName, Value>

  function OperationalStatusStr(s: OperationalStatus): string {
    match s
    case OpUnspecified => "unspecified"
    case OpReady => "ready"
    case OpActive => "active"
    case OpDegraded => "degraded"
    case OpOffline => "offline"
    case OpMaintenance => "maintenance"
  }

  function HealthStatusStr(h: HealthStatus): string {
    match h
    case HealthUnspecified => "unspecified"
    case HealthNominal => "nominal"
    case HealthDegraded => "degraded"
    case HealthCritical => "critical"
    case HealthFailed => "failed"
  }

  function PhaseStr(p: NodePhase): string {
    match p
    case PhaseUnspecified => "unspecified"
    case PhaseDiscovery => "discovery"
    case PhaseCell => "cell"
    case PhaseHierarchy => "hierarchy"
  }

  const U64_MODULUS: nat := 0x1_0000_0000_0000_0000

  /** The cast of a 64-bit word to a signed one. */
  function AsI64(n: nat): int
    requires n < U64_MODULUS
  {
    if n < U64_MODULUS / 2 then n else n - U64_MODULUS
  }

  /** Milliseconds of a timestamp: the product saturates at the largest word; the sum wraps around, as it does
      in a build without overflow checks. */
  function Millis(ts: Timestamp): int {
    var product := if ts.seconds * 1000 < U64_MODULUS then ts.seconds * 1000 else U64_MODULUS - 1;
    AsI64((product + ts.nanos / 1_000_000) % U64_MODULUS)
  }

  function MillisOf(t: Track): Option<Value> {
    if t.lastSeen.Some? then Some(Int64(Millis(t.lastSeen.value))) else None
  }

  function SourceNodeOf(t: Track): string { if t.source.Some? then t.source.value.nodeId else "" }

  /** Insert a field when it has a value. */
  function Put(fs: Fields, f: FieldName, v: Option<Value>): Fields {
    if v.Some? then fs[f := v.value] else fs
  }

  /** Latitude and longitude, and the altitude unless it is zero. */
  function PutPosition(fs: Fields, p: Option<Position>): Fields {
    if p.None? then fs
    else Put(fs[Lat := Num(p.value.latitude)][Lon := Num(p.value.longitude)],
             Hae, if p.value.altitude != 0.0 then Some(Num(p.value.altitude)) else None)
  }

  function NonEmpty(s: string): Option<Value> { if s != "" then Some(Str(s)) else None }

  function TrackFields(t: Track): Fields {
    var fs := Put(PutPosition(map[], t.position), TimestampMs, MillisOf(t));
    Put(Put(fs, SapientClassification, NonEmpty(t.classification))[SapientConfidence := Num(t.confidence)],
        SapientSourceNodeId, NonEmpty(SourceNodeOf(t)))
  }

  function PlatformFields(a: CapabilityAdvertisement, state: Option<NodeState>): Fields {
    var caps := Put(map[], Capabilities, if a.capabilities != [] then Some(Names(a.capabilities)) else None);
    var fs := Put(caps, OperationalState,
      if a.operationalStatus != OpUnspecified then Some(Str(OperationalStatusStr(a.operationalStatus))) else None);
    if state.None? then fs
    else PutPosition(fs[Health := Str(HealthStatusStr(state.value.health))][Phase := Str(PhaseStr(state.value.phase))],
                     state.value.position)
  }

  /** Two tracks project to the same fields exactly when they agree on position, millisecond timestamp,
      classification, confidence and source node, where an absent source counts as one with an empty node id.
      So sensor id, observation count and anything below a millisecond are lost, and nothing else is. */
  lemma TrackProjectionKernel(t: Track, u: Track)
    ensures TrackFields(t) == TrackFields(u) <==>
      t.position == u.position && MillisOf(t) == MillisOf(u) && t.classification == u.classification &&
      t.confidence == u.confidence && SourceNodeOf(t) == SourceNodeOf(u)
  {
    TrackFieldsAre(t);
    TrackFieldsAre(u);
    hide TrackFields;
    var fs, gs := TrackFields(t), TrackFields(u);
    if fs == gs {
      assert fs[SapientConfidence] == gs[SapientConfidence];
      if Lat in fs { assert fs[Lat] == gs[Lat] && fs[Lon] == gs[Lon]; }
      if Hae in fs { assert fs[Hae] == gs[Hae]; }
    }
    if t.position == u.position && MillisOf(t) == MillisOf(u) && t.classification == u.classification &&
      t.confidence == u.confidence && SourceNodeOf(t) == SourceNodeOf(u)
    {
      assert fs == gs;
    }
  }

  lemma TrackFieldsAre(t: Track)
    ensures var fs := TrackFields(t);
      (forall f :: f in fs <==> match f
         case Lat => t.position.Some?
         case Lon => t.position.Some?
         case Hae => t.position.Some? && t.position.value.altitude != 0.0
         case TimestampMs => t.lastSeen.Some?
         case SapientClassification => t.classification != ""
         case SapientConfidence => true
         case SapientSourceNodeId => SourceNodeOf(t) != ""
         case _ => false) &&
      (Lat in fs ==> fs[Lat] == Num(t.position.value.latitude) && fs[Lon] == Num(t.position.value.longitude)) &&
      (Hae in fs ==> fs[Hae] == Num(t.position.value.altitude)) &&
      (TimestampMs in fs ==> Some(fs[TimestampMs]) == MillisOf(t)) &&
      (SapientClassification in fs ==> fs[SapientClassification] == Str(t.classification)) &&
      fs[SapientConfidence] == Num(t.confidence) &&
      (SapientSourceNodeId in fs ==> fs[SapientSourceNodeId] == Str(SourceNodeOf(t)))
  {
    hide Millis;
  }

  function SaturatedMillis(ts: Timestamp): nat {
    (if 1000 * ts.seconds <= 0xFFFF_FFFF_FFFF_FFFF then 1000 * ts.seconds else 0xFFFF_FFFF_FFFF_FFFF)
      + ts.nanos / 1000000
  }

  /** A timestamp is its milliseconds as long as they fit, and otherwise wraps around as a 64-bit word: the
      seconds saturate first. */
  lemma MillisMean(ts: Timestamp)
    ensures -0x8000_0000_0000_0000 <= Millis(ts) < 0x8000_0000_0000_0000
    ensures 1000 * ts.seconds + ts.nanos / 1000000 < 0x8000_0000_0000_0000 ==>
      Millis(ts) == 1000 * ts.seconds + ts.nanos / 1000000
    ensures exists k: int :: Millis(ts) + k * 0x1_0000_0000_0000_0000 == SaturatedMillis(ts)
  {
    var sum := SaturatedMillis(ts);
    var k := sum / U64_MODULUS + if sum % U64_MODULUS < U64_MODULUS / 2 then 0 else 1;
    assert Millis(ts) + k * 0x1_0000_0000_0000_0000 == sum;
  }

  /** No two values of an enumeration share a name on the wire. */
  lemma NamesTellApart()
    ensures forall a, b :: OperationalStatusStr(a) == OperationalStatusStr(b) ==> a == b
    ensures forall a, b :: HealthStatusStr(a) == HealthStatusStr(b) ==> a == b
    ensures forall a, b :: PhaseStr(a) == PhaseStr(b) ==> a == b
  {
  }

  method TrackToFields(track: Track) returns (id: string, fields: Fields)
    ensures id == track.trackId && fields == TrackFields(track)
  {
    fields := map[];
    if track.position.Some? {
      var pos := track.position.value;
      fields := fields[Lat := Num(pos.latitude)];
      fields := fields[Lon := Num(pos.longitude)];
      if pos.altitude != 0.0 {
        fields := fields[Hae := Num(pos.altitude)];
      }
    }
    if track.lastSeen.Some? {
      fields := fields[TimestampMs := Int64(Millis(track.lastSeen.value))];
    }
    if track.classification != "" {
      fields := fields[SapientClassification := Str(track.classification)];
    }
    fields := fields[SapientConfidence := Num(track.confidence)];
    if track.source.Some? {
      if track.source.value.nodeId != "" {
        fields := fields[SapientSourceNodeId := Str(track.source.value.nodeId)];
      }
    }
    id := track.trackId;
  }

  method PlatformToFields(advertisement: CapabilityAdvertisement, state: Option<NodeState>)
    returns (id: string, fields: Fields)
    ensures id == advertisement.nodeId && fields == PlatformFields(advertisement, state)
  {
    fields := map[];
    if advertisement.capabilities != [] {
      fields := fields[Capabilities := Names(advertisement.capabilities)];
    }
    if advertisement.operationalStatus != OpUnspecified {
      fields := fields[OperationalState := Str(OperationalStatusStr(advertisement.operationalStatus))];
    }
    if state.Some? {
      fields := fields[Health := Str(HealthStatusStr(state.value.health))];
      fields := fields[Phase := Str(PhaseStr(state.value.phase))];
      if state.value.position.Some? {
        var pos := state.value.position.value;
        fields := fields[Lat := Num(pos.latitude)];
        fields := fields[Lon := Num(pos.longitude)];
        if pos.altitude != 0.0 {
          fields := fields[Hae := Num(pos.altitude)];
        }
      }
    }
    id := advertisement.nodeId;
  }

  // ---- one platform's document over a run of its messages ----

  /** The fields one message of `node` publishes to `platforms`; other messages publish none. */
  function PlatformDelta(g: Geodesy, node: string, c: Content): Fields {
    match c
    case ContentRegistration(reg) => PlatformFields(FromRegistration(node, reg), None)
    case ContentStatusReport(sr) =>
      var (state, delta) := FromStatusReport(g, node, sr);
      PlatformFields(DeltaOrDefault(node, delta), Some(state))
    case _ => map[]
  }

  /** A report without a capability delta stands for an empty advertisement of its node. */
  function DeltaOrDefault(node: string, delta: Option<CapabilityAdvertisement>): CapabilityAdvertisement {
    if delta.Some? then delta.value else CapabilityAdvertisement(node, [], OpUnspecified)
  }

  /** Field-wise last-writer-wins merge of everything the run publishes. */
  function MergedDocument(g: Geodesy, node: string, run: seq<Content>): Fields {
    if run == [] then map[]
    else MergedDocument(g, node, run[..|run| - 1]) + PlatformDelta(g, node, run[|run| - 1])
  }

  // What a message asserts, read off the message itself.

  function AssertedCapabilities(c: Content): Option<Value> {
    if c.ContentRegistration? && (exists t :: t in c.registration.nodeTypes && RecognisedType(t))
    then Some(Names(CapabilityNames(c.registration.nodeTypes))) else None
  }

  /** A Registration asserts ready; a StatusReport asserts only when it carries field of view or mode and a
      known system state. */
  function AssertedStatus(c: Content): Option<Value> {
    match c
    case ContentRegistration(_) => Some(Str("ready"))
    case ContentStatusReport(sr) =>
      if !(sr.fieldOfView || sr.mode) || sr.system.None? then None
      else if sr.system.value == 1 then Some(Str("ready"))
      else if sr.system.value == 2 then Some(Str("degraded"))
      else if sr.system.value == 3 || sr.system.value == 5 then Some(Str("offline"))
      else None
    case _ => None
  }

  function AssertedPosition(g: Geodesy, c: Content): Option<Position> {
    if c.ContentStatusReport? then ReportPlace(g, c.status) else None
  }

  function AssertedHealth(c: Content): Option<Value> {
    if !c.ContentStatusReport? then None
    else if c.status.system == Some(1) then Some(Str("nominal"))
    else if c.status.system == Some(2) then Some(Str("degraded"))
    else if c.status.system == Some(3) then Some(Str("critical"))
    else if c.status.system == Some(5) then Some(Str("failed"))
    else Some(Str("unspecified"))
  }

  function LatitudeOf(g: Geodesy, c: Content): Option<Value> {
    if AssertedPosition(g, c).Some? then Some(Num(AssertedPosition(g, c).value.latitude)) else None
  }

  function LongitudeOf(g: Geodesy, c: Content): Option<Value> {
    if AssertedPosition(g, c).Some? then Some(Num(AssertedPosition(g, c).value.longitude)) else None
  }

  function AltitudeOf(g: Geodesy, c: Content): Option<Value> {
    if AssertedPosition(g, c).Some? && AssertedPosition(g, c).value.altitude != 0.0
    then Some(Num(AssertedPosition(g, c).value.altitude)) else None
  }

  /** What message `c` asserts for field `f`, if anything. */
  function Asserted(g: Geodesy, f: FieldName, c: Content): Option<Value> {
    match f
    case Capabilities => AssertedCapabilities(c)
    case OperationalState => AssertedStatus(c)
    case Lat => LatitudeOf(g, c)
    case Lon => LongitudeOf(g, c)
    case Hae => AltitudeOf(g, c)
    case Health => AssertedHealth(c)
    case Phase => if c.ContentStatusReport? then Some(Str("hierarchy")) else None
    case _ => None
  }

  /** `i` is the last message of the run that asserts field `f`. */
  ghost predicate LastAsserting(g: Geodesy, f: FieldName, run: seq<Content>, i: nat) {
    i < |run| && Asserted(g, f, run[i]).Some? &&
    forall k :: i < k < |run| ==> Asserted(g, f, run[k]).None?
  }

  lemma StatusDelta(g: Geodesy, node: string, sr: StatusReport, f: FieldName)
    ensures var c := ContentStatusReport(sr);
      (f in PlatformDelta(g, node, c) <==> Asserted(g, f, c).Some?) &&
      (f in PlatformDelta(g, node, c) ==> PlatformDelta(g, node, c)[f] == Asserted(g, f, c).value)
  {
    StatusReportMeans(g, node, sr);
    hide FromStatusReport, ReportPlace;
  }

  lemma DeltaIsWhatIsAsserted(g: Geodesy, node: string, c: Content, f: FieldName)
    ensures f in PlatformDelta(g, node, c) <==> Asserted(g, f, c).Some?
    ensures f in PlatformDelta(g, node, c) ==> PlatformDelta(g, node, c)[f] == Asserted(g, f, c).value
  {
    if c.ContentStatusReport? {
      StatusDelta(g, node, c.status, f);
      hide PlatformDelta, Asserted;
    }
  }

  /** Every field of the merged document holds what the last message asserting it asserted, and is absent
      exactly when none ever did: capabilities come from the last Registration with a recognised node type,
      the operational status from the last message asserting one, latitude and longitude from the last
      resolvable position, altitude from the last non-zero one. */
  lemma {:induction false} MergedFieldIsLastAsserted(g: Geodesy, node: string, run: seq<Content>, f: FieldName)
    ensures f in MergedDocument(g, node, run) <==> exists i: nat :: LastAsserting(g, f, run, i)
    ensures forall i: nat :: LastAsserting(g, f, run, i) ==>
      f in MergedDocument(g, node, run) && MergedDocument(g, node, run)[f] == Asserted(g, f, run[i]).value
  {
    hide PlatformDelta, Asserted;
    if run != [] {
      var before, n := run[..|run| - 1], |run| - 1;
      MergedFieldIsLastAsserted(g, node, before, f);
      DeltaIsWhatIsAsserted(g, node, run[n], f);
      if Asserted(g, f, run[n]).Some? {
        assert LastAsserting(g, f, run, n);
      } else {
        assert forall i :: 0 <= i < n ==> before[i] == run[i];
        forall i: nat ensures LastAsserting(g, f, run, i) <==> LastAsserting(g, f, before, i) {
          if LastAsserting(g, f, before, i) {
            forall k | i < k < |run| ensures Asserted(g, f, run[k]).None? { if k < n { assert before[k] == run[k]; } }
          }
          if LastAsserting(g, f, run, i) {
            forall k | i < k < |before| ensures Asserted(g, f, before[k]).None? { assert before[k] == run[k]; }
          }
        }
      }
    }
  }

  /** Latitude and longitude always come from one and the same report. */
  lemma {:induction false} PositionIsNeverMixed(g: Geodesy, node: string, run: seq<Content>)
    ensures Lat in MergedDocument(g, node, run) <==> Lon in MergedDocument(g, node, run)
    ensures Lat in MergedDocument(g, node, run) ==>
      exists i :: 0 <= i < |run| && AssertedPosition(g, run[i]).Some? &&
        MergedDocument(g, node, run)[Lat] == Num(AssertedPosition(g, run[i]).value.latitude) &&
        MergedDocument(g, node, run)[Lon] == Num(AssertedPosition(g, run[i]).value.longitude)
  {
    MergedFieldIsLastAsserted(g, node, run, Lat);
    MergedFieldIsLastAsserted(g, node, run, Lon);
    forall i: nat ensures LastAsserting(g, Lat, run, i) <==> LastAsserting(g, Lon, run, i) {
    }
  }

  /** A pure heartbeat (no field of view, no mode) leaves capabilities and operational status alone. */
  lemma {:induction false} HeartbeatKeepsStanding(g: Geodesy, node: string, run: seq<Content>, sr: StatusReport)
    requires !sr.fieldOfView && !sr.mode
    ensures var d, d' := MergedDocument(g, node, run), MergedDocument(g, node, run + [ContentStatusReport(sr)]);
      forall f :: f == Capabilities || f == OperationalState ==>
        (f in d <==> f in d') && (f in d ==> d[f] == d'[f])
  {
    assert (run + [ContentStatusReport(sr)])[..|run|] == run;
  }
}
