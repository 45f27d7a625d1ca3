// The SAPIENT (BSI Flex 335 v2.0) messages the bridge exchanges and the peat records they map to.
// Floating-point fields are `real`; fields no modelled code reads are left out.

module Sapient {
  import opened Base

  datatype Location = Location(
    x: Option<real>, y: Option<real>, z: Option<real>,
    coordinateSystem: Option<int>, utmZone: Option<string>)

  datatype RangeBearing = RangeBearing(
    range: Option<real>, azimuth: Option<real>, elevation: Option<real>, coordinateSystem: Option<int>)

  datatype LocationOneof = AtLocation(location: Location) | AtRangeBearing(rangeBearing: RangeBearing)

  datatype Classification = Classification(kind: Option<string>, confidence: Option<real>)

  datatype DetectionReport = DetectionReport(
    reportId: Option<string>, objectId: Option<string>, location: Option<LocationOneof>,
      classification: seq<Classification>)

  /** `fieldOfView` and `mode` record only whether the field is present. */
  datatype StatusReport = StatusReport(
    system: Option<int>, nodeLocation: Option<Location>, powerLevel: Option<int>,
    fieldOfView: bool, mode: bool)

  /** The `node_type` of each entry of `Registration.node_definition`. */
  datatype Registration = Registration(nodeTypes: seq<Option<int>>)

  /** `body` stands for the fields of a Task that the bridge only carries. */
  datatype Content =
    | ContentRegistration(registration: Registration)
    | ContentRegistrationAck
    | ContentStatusReport(status: StatusReport)
    | ContentDetectionReport(detection: DetectionReport)
    | ContentTask(taskId: Option<string>, body: string)
    | ContentTaskAck(ackedTask: Option<string>, taskStatus: Option<int>)
    | ContentAlert
    | ContentAlertAck(alertId: string)
    | ContentError

  datatype SapientMessage = SapientMessage(
    nodeId: Option<string>, destinationId: Option<string>, content: Option<Content>)
  {
    /** The sender's node id; a message without one counts as sent by the node with the empty id. */
    function Node(): (node: string)
      ensures nodeId == Some(node) || (nodeId.None? && node == "")
    {
      if nodeId.Some? then nodeId.value else ""
    }
  }

  datatype SapientError =
    | MappingError(kind: string)
    | UnsupportedCoordinateSystem
    | FrameTooLarge(size: nat, max: nat)
    | DecodeError

  // peat-schema records

  datatype Position = Position(latitude: real, longitude: real, altitude: real)

  datatype Timestamp = Timestamp(seconds: nat, nanos: nat)

  datatype TrackSource = TrackSource(nodeId: string, sensorId: string)

  datatype Track = Track(
    trackId: string, classification: string, confidence: real, position: Option<Position>,
    source: Option<TrackSource>, lastSeen: Option<Timestamp>, observationCount: nat)

  datatype OperationalStatus = OpUnspecified | OpReady | OpActive | OpDegraded | OpOffline | OpMaintenance

  datatype HealthStatus = HealthUnspecified | HealthNominal | HealthDegraded | HealthCritical | HealthFailed

  datatype CapabilityAdvertisement = CapabilityAdvertisement(
    nodeId: string, capabilities: seq<string>, operationalStatus: OperationalStatus)

  datatype NodePhase = PhaseUnspecified | PhaseDiscovery | PhaseCell | PhaseHierarchy

  datatype NodeState = NodeState(
    position: Option<Position>, fuelMinutes: nat, health: HealthStatus, phase: NodePhase)

  // Bridge output

  datatype TaskAckStatus = AckAccepted | AckRejected | AckCompleted | AckFailed

  datatype SapientUpdate =
    | Registered(nodeId: string, advertisement: CapabilityAdvertisement)
    | StatusUpdated(nodeId: string, state: NodeState, capabilityDelta: Option<CapabilityAdvertisement>)
    | Detected(nodeId: string, track: Track)
    | Alerted(nodeId: string)
    | AlertAcknowledged(nodeId: string)
    | TaskAcknowledged(nodeId: string, taskId: string, commandId: Option<string>, status: TaskAckStatus)
    | Ignored
    | NodeDisconnected(nodeId: string)
}
