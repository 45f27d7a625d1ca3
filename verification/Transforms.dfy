// SAPIENT reports to peat records. Trigonometry and map projection are parameters of the model.

module Transforms {
  import opened Base
  import opened Sapient

  /** Degrees from radians; the inverse UTM projection (None for a zone that does not parse); and a sensor
      position shifted by range, azimuth and elevation in metres and degrees. */
  datatype Geodesy = Geodesy(
    toDegrees: real -> real,
    utm: (real, real, string) -> Option<(real, real)>,
    offset: (real, real, real, Position) -> Position)

  function OrZero(r: Option<real>): real { if r.Some? then r.value else 0.0 }

  function RawCode(c: Option<int>): int { if c.Some? then c.value else 0 }

  const FEET_TO_METRES: real := 0.3048
  const KM_TO_METRES: real := 1000.0

  // ---- StatusReport ----

  function SystemToHealth(system: int): HealthStatus {
    match system
    case 1 => HealthNominal
    case 2 => HealthDegraded
    case 3 => HealthCritical
    case 5 => HealthFailed
    case _ => HealthUnspecified
  }

  function SystemToOperationalStatus(system: int): OperationalStatus {
    match system
    case 1 => OpReady
    case 2 => OpDegraded
    case 3 => OpOffline
    case 5 => OpOffline
    case _ => OpUnspecified
  }

  /** Only degrees and radians resolve here; UTM, unspecified and unknown codes do not. */
  function LocationToPosition(g: Geodesy, loc: Location): Option<Position> {
    if loc.x.None? || loc.y.None? then None
    else match RawCode(loc.coordinateSystem)
      case 1 => Some(Position(loc.y.value, loc.x.value, OrZero(loc.z)))
      case 2 => Some(Position(g.toDegrees(loc.y.value), g.toDegrees(loc.x.value), OrZero(loc.z)))
      case _ => None
  }

  function ReportedPosition(g: Geodesy, sr: StatusReport): Option<Position> {
    if sr.nodeLocation.Some? then LocationToPosition(g, sr.nodeLocation.value) else None
  }

  function BatteryPercent(level: Option<int>): (pct: nat)
    ensures pct <= 100
  {
    var l := RawCode(level);
    if l < 0 then 0 else if l > 100 then 100 else l
  }

  function FromStatusReport(g: Geodesy, node: string, sr: StatusReport): (NodeState, Option<CapabilityAdvertisement>) {
    var state := NodeState(ReportedPosition(g, sr), BatteryPercent(sr.powerLevel),
                           SystemToHealth(RawCode(sr.system)), PhaseHierarchy);
    var delta :=
      if sr.fieldOfView || sr.mode
      then Some(CapabilityAdvertisement(node, [], SystemToOperationalStatus(RawCode(sr.system))))
      else None;
    (state, delta)
  }

  // ---- Registration ----

  const NODE_TYPE_NAMES: seq<string> := [
    "Unspecified", "Other", "Radar", "Lidar", "Camera", "Seismic", "Acoustic", "ProximitySensor", "PassiveRf",
    "Human", "Chemical", "Biological", "Radiation", "Kinetic", "Jammer", "Cyber", "Ldew", "Rfdew",
    "MobileNode", "PointableNode", "FusionNode"]

  predicate RecognisedType(t: Option<int>) { t.Some? && 0 <= t.value < |NODE_TYPE_NAMES| }

  function NameOf(t: Option<int>): seq<string> { if RecognisedType(t) then [NODE_TYPE_NAMES[t.value]] else [] }

  /** One capability per definition with a recognised node type; the others are skipped. */
  function CapabilityNames(types: seq<Option<int>>): (names: seq<string>)
    ensures names == [] <==> forall t :: t in types ==> !RecognisedType(t)
  {
    if types == [] then []
    else
      assert types == [types[0]] + types[1..];
      NameOf(types[0]) + CapabilityNames(types[1..])
  }

  function FromRegistration(node: string, reg: Registration): CapabilityAdvertisement {
    CapabilityAdvertisement(node, CapabilityNames(reg.nodeTypes), OpReady)
  }

  // ---- DetectionReport ----

  function LocationToTrackPosition(g: Geodesy, loc: Location): Result<Position, SapientError> {
    if loc.x.None? || loc.y.None? then Err(MappingError("location"))
    else
      var x, y, z := loc.x.value, loc.y.value, OrZero(loc.z);
      match RawCode(loc.coordinateSystem)
      case 1 => Ok(Position(y, x, z))
      case 2 => Ok(Position(g.toDegrees(y), g.toDegrees(x), z))
      case 3 => Ok(Position(y, x, z * FEET_TO_METRES))
      case 4 => Ok(Position(g.toDegrees(y), g.toDegrees(x), z * FEET_TO_METRES))
      case 5 =>
        if loc.utmZone.None? || g.utm(x, y, loc.utmZone.value).None? then Err(MappingError("location"))
        else var ll := g.utm(x, y, loc.utmZone.value).value; Ok(Position(ll.0, ll.1, z))
      case _ => Err(UnsupportedCoordinateSystem)
  }

  /** (range in metres, azimuth and elevation in degrees). */
  function NormalizeRangeBearing(g: Geodesy, rb: RangeBearing): Result<(real, real, real), SapientError> {
    if rb.range.None? || rb.azimuth.None? then Err(MappingError("range_bearing"))
    else
      var r, az, el := rb.range.value, rb.azimuth.value, OrZero(rb.elevation);
      match RawCode(rb.coordinateSystem)
      case 1 => Ok((r, az, el))
      case 2 => Ok((r, g.toDegrees(az), g.toDegrees(el)))
      case 3 => Ok((r * KM_TO_METRES, az, el))
      case 4 => Ok((r * KM_TO_METRES, g.toDegrees(az), g.toDegrees(el)))
      case 5 => Ok((r * FEET_TO_METRES, az, el))
      case 6 => Ok((r * FEET_TO_METRES, g.toDegrees(az), g.toDegrees(el)))
      case _ => Err(UnsupportedCoordinateSystem)
  }

  function TrackPositionOf(g: Geodesy, sensor: Option<Position>, dr: DetectionReport): Result<Position, SapientError> {
    match dr.location
    case Some(AtLocation(loc)) => LocationToTrackPosition(g, loc)
    case Some(AtRangeBearing(rb)) =>
      if sensor.None? then Err(UnsupportedCoordinateSystem)
      else (match NormalizeRangeBearing(g, rb)
            case Ok((r, az, el)) => Ok(g.offset(r, az, el, sensor.value))
            case Err(e) => Err(e))
    case None => Err(MappingError("detection"))
  }

  function FromDetectionReport(g: Geodesy, node: string, sensor: Option<Position>, dr: DetectionReport)
    : Result<Track, SapientError>
  {
    match TrackPositionOf(g, sensor, dr)
    case Err(e) => Err(e)
    case Ok(p) =>
      var first := if dr.classification == [] then Classification(None, None) else dr.classification[0];
      Ok(Track(
           if dr.objectId.Some? then dr.objectId.value else "",
           if first.kind.Some? then first.kind.value else "",
           OrZero(first.confidence), Some(p),
           Some(TrackSource(node, if dr.reportId.Some? then dr.reportId.value else "")), None, 1))
  }

  predicate IsRangeBearing(dr: DetectionReport) { dr.location.Some? && dr.location.value.AtRangeBearing? }

  /** A detection that maps only when a sensor position is known. */
  predicate NeedsSensor(g: Geodesy, dr: DetectionReport) {
    IsRangeBearing(dr) && NormalizeRangeBearing(g, dr.location.value.rangeBearing).Ok?
  }

  // ---- what the mappings mean, read off the messages field by field ----

  /** Where a reported location is: x is the longitude and y the latitude, in degrees (system 1) or radians
      (system 2), z the altitude, zero when absent; nothing else says where the node is. */
  function PlaceOf(g: Geodesy, loc: Location): Option<Position> {
    match (loc.x, loc.y, loc.coordinateSystem)
    case (Some(east), Some(north), Some(1)) =>
      Some(Position(latitude := north, longitude := east, altitude := if loc.z.Some? then loc.z.value else 0.0))
    case (Some(east), Some(north), Some(2)) =>
      Some(Position(latitude := g.toDegrees(north), longitude := g.toDegrees(east),
                    altitude := if loc.z.Some? then loc.z.value else 0.0))
    case _ => None
  }

  function ReportPlace(g: Geodesy, sr: StatusReport): Option<Position> {
    if sr.nodeLocation.Some? then PlaceOf(g, sr.nodeLocation.value) else None
  }

  lemma ReportedIsPlace(g: Geodesy, sr: StatusReport)
    ensures ReportedPosition(g, sr) == ReportPlace(g, sr)
  {
  }

  /** The health a system code stands for: 1 nominal, 2 degraded, 3 critical, 5 failed. */
  function HealthOfCode(code: Option<int>): HealthStatus {
    if code == Some(1) then HealthNominal
    else if code == Some(2) then HealthDegraded
    else if code == Some(3) then HealthCritical
    else if code == Some(5) then HealthFailed
    else HealthUnspecified
  }

  function StatusOfCode(code: Option<int>): OperationalStatus {
    if code == Some(1) then OpReady
    else if code == Some(2) then OpDegraded
    else if code == Some(3) || code == Some(5) then OpOffline
    else OpUnspecified
  }

  function Clamped(level: int): int { if level <= 0 then 0 else if level >= 100 then 100 else level }

  /** A status report becomes a state with the place, the health and the clamped power level it reports, and a
      delta, for its own node and without capabilities, exactly when it carries a field of view or a mode. */
  lemma StatusReportMeans(g: Geodesy, node: string, sr: StatusReport)
    ensures var (state, delta) := FromStatusReport(g, node, sr);
      state.position == ReportPlace(g, sr) && state.health == HealthOfCode(sr.system) &&
      state.phase == PhaseHierarchy &&
      state.fuelMinutes == Clamped(if sr.powerLevel.Some? then sr.powerLevel.value else 0) &&
      (delta.Some? <==> sr.fieldOfView || sr.mode) &&
      (delta.Some? ==> delta == Some(CapabilityAdvertisement(node, [], StatusOfCode(sr.system))))
  {
  }

  /** A registration advertises, for its own node and as ready, the names of its recognised node types in
      order. */
  lemma RegistrationMeans(node: string, a: seq<Option<int>>, t: Option<int>)
    ensures var adv := FromRegistration(node, Registration(a + [t]));
      adv.nodeId == node && adv.operationalStatus == OpReady &&
      adv.capabilities == FromRegistration(node, Registration(a)).capabilities +
        (if t.Some? && 0 <= t.value < 21 then [NODE_TYPE_NAMES[t.value]] else [])
    ensures FromRegistration(node, Registration([])).capabilities == []
  {
    NamesAppend(a, t);
  }

  lemma {:induction false} NamesAppend(a: seq<Option<int>>, t: Option<int>)
    ensures CapabilityNames(a + [t]) == CapabilityNames(a) + NameOf(t)
  {
    var at := a + [t];
    if a == [] {
      assert at == [t];
    } else {
      assert at[0] == a[0] && at[1..] == a[1..] + [t];
      NamesAppend(a[1..], t);
      hide NameOf, RecognisedType;
      calc {
        CapabilityNames(at);
        NameOf(a[0]) + CapabilityNames(a[1..] + [t]);
        NameOf(a[0]) + (CapabilityNames(a[1..]) + NameOf(t));
      }
    }
  }

  /** A detected location resolves in degrees or radians, in metres or feet, or as UTM with a zone the
      projection knows; altitude is in metres. */
  lemma DetectedPlaceMeans(g: Geodesy, loc: Location)
    ensures var r, z := LocationToTrackPosition(g, loc), if loc.z.Some? then loc.z.value else 0.0;
      match (loc.x, loc.y)
      case (Some(x), Some(y)) =>
        (loc.coordinateSystem == Some(1) ==> r == Ok(Position(y, x, z))) &&
        (loc.coordinateSystem == Some(2) ==> r == Ok(Position(g.toDegrees(y), g.toDegrees(x), z))) &&
        (loc.coordinateSystem == Some(3) ==> r == Ok(Position(y, x, z * 0.3048))) &&
        (loc.coordinateSystem == Some(4) ==> r == Ok(Position(g.toDegrees(y), g.toDegrees(x), z * 0.3048))) &&
        (loc.coordinateSystem == Some(5) ==>
          if loc.utmZone.Some? && g.utm(x, y, loc.utmZone.value).Some? then
            r == Ok(Position(g.utm(x, y, loc.utmZone.value).value.0, g.utm(x, y, loc.utmZone.value).value.1, z))
          else r == Err(MappingError("location"))) &&
        (loc.coordinateSystem.None? || !(1 <= loc.coordinateSystem.value <= 5) ==>
          r == Err(UnsupportedCoordinateSystem))
      case _ => r == Err(MappingError("location"))
  {
  }

  /** Range in metres, kilometres or feet; azimuth and elevation in degrees or radians; no elevation is level. */
  lemma RangeBearingMeans(g: Geodesy, rb: RangeBearing)
    ensures var r, el := NormalizeRangeBearing(g, rb), if rb.elevation.Some? then rb.elevation.value else 0.0;
      match (rb.range, rb.azimuth)
      case (Some(d), Some(az)) =>
        (rb.coordinateSystem == Some(1) ==> r == Ok((d, az, el))) &&
        (rb.coordinateSystem == Some(2) ==> r == Ok((d, g.toDegrees(az), g.toDegrees(el)))) &&
        (rb.coordinateSystem == Some(3) ==> r == Ok((d * 1000.0, az, el))) &&
        (rb.coordinateSystem == Some(4) ==> r == Ok((d * 1000.0, g.toDegrees(az), g.toDegrees(el)))) &&
        (rb.coordinateSystem == Some(5) ==> r == Ok((d * 0.3048, az, el))) &&
        (rb.coordinateSystem == Some(6) ==> r == Ok((d * 0.3048, g.toDegrees(az), g.toDegrees(el)))) &&
        (rb.coordinateSystem.None? || !(1 <= rb.coordinateSystem.value <= 6) ==> r == Err(UnsupportedCoordinateSystem))
      case _ => r == Err(MappingError("range_bearing"))
  {
  }

  /** A detection becomes a track of its sender, under its object id, classified as its first classification
      says, at the place it was detected; it fails exactly when that place cannot be resolved. */
  lemma DetectionMeans(g: Geodesy, node: string, sensor: Option<Position>, dr: DetectionReport)
    ensures var r := FromDetectionReport(g, node, sensor, dr);
      (match dr.location
       case None => r == Err(MappingError("detection"))
       case Some(AtLocation(loc)) =>
         var p := LocationToTrackPosition(g, loc);
         if p.Ok? then r.Ok? && r.value.position == Some(p.value) else r.Err? && r.error == p.error
       case Some(AtRangeBearing(rb)) =>
         if sensor.None? then r == Err(UnsupportedCoordinateSystem)
         else match NormalizeRangeBearing(g, rb)
           case Err(e) => r == Err(e)
           case Ok((d, az, el)) => r.Ok? && r.value.position == Some(g.offset(d, az, el, sensor.value))) &&
      (r.Ok? ==>
        Some(r.value.trackId) == (if dr.objectId.Some? then dr.objectId else Some("")) &&
        r.value.source.Some? && r.value.source.value.nodeId == node && r.value.lastSeen.None? &&
        Some(r.value.source.value.sensorId) == (if dr.reportId.Some? then dr.reportId else Some("")) &&
        r.value.observationCount == 1 &&
        (dr.classification == [] ==> r.value.classification == "" && r.value.confidence == 0.0) &&
        (forall first, rest :: dr.classification == [first] + rest ==>
          Some(r.value.classification) == (if first.kind.Some? then first.kind else Some("")) &&
          Some(r.value.confidence) == (if first.confidence.Some? then first.confidence else Some(0.0))))
  {
    hide LocationToTrackPosition, NormalizeRangeBearing;
  }
}
