# A verified model of the SAPIENT bridge

The repository bridges SAPIENT (BSI Flex 335 v2.0) sensors into a peat mesh. This project models its
stateful core in Dafny and proves what that core promises:

- **Tasking** (`TaskQueue.dfy`, `Bridge*.dfy`). `send_task` calls and connection handlers share four maps behind
  separate locks. `TaskQueue` is a class proved against an enqueue log. The bridge is a step system:
  any number of `send_task` and `send_alert_ack` calls and of `run_connection` handlers, one program counter each, one
  step per lock section or channel send, interleaved in every way the locks and the bounded channels allow. Writers
  may fail, peers may hang up, a watchdog may take nodes out of the registry, the clock advances at will.
- **Detection limiting** (`RateLimit.dfy`, `Routing.dfy`). The constant-state token bucket is proved equal to a
  specification that remembers every admission and looks back over all of them.
- **Reconnecting** (`Reconnect.dfy`, `Connection.dfy`). The DLMM connect loop, its peer loop, the writers into the
  outbound channel and any number of `disconnect` calls, interleaved at their await points.
- **Framing** (`Codec.dfy`). The length-prefixed parser and printer over a growing buffer.
- **Watchdog and registry** (`Registry.dfy`). Sweeps with ideal ticks, and sweeps interleaved with the bridge.
- **Mesh projection** (`Transforms.dfy`, `MeshFields.dfy`, `Translator.dfy`). Field projection and
  last-writer-wins merge, the sensor position cache, and the two paths onto the mesh.

`Base.dfy` holds stock types and counting lemmas, `Sapient.dfy` the messages and records.

Task ids are ULIDs; results that need their uniqueness say so with `UniqueIds`, which constrains the callers of
`send_task` and nothing else. Instants are whole clock units, except for the limiter, which computes in seconds and
uses real numbers.

## Where the code and its documentation differ

The model follows the code. Each difference below is stated as a lemma.

- `TaskQueue` is documented to hold at most `max_depth` tasks per node. With `max_depth` 0 it still holds one, so
  the bound is `max(1, max_depth)` (`TaskQueues.ZeroDepthHoldsOne`, `BridgeLocks.BoundedStep`).
- `TaskQueue` documents removal on an Accepted or Rejected acknowledgement. The handler removes a task on any
  status, Failed included (`BridgeRegistry.RouteDecides`).
- The registry documents that it stores positions to resolve range-bearing detections. The handler never stores
  one, so the bridge never places such a detection (`BridgeRegistry.RangeBearingNeverMaps`), while the translator
  does; this is the only way in which the two mesh paths differ (`Translation.PathsAgreeIff`).
- The registry documents `last_seen` as the time of the last message. Only registrations, status reports and
  placed detections refresh it (`BridgeRegistry.LastSeenIsLastRefresh`).
- A `RegistrationAck` is sent on registration but need not come first: `BridgeConnections.AckComesFirstIff` says
  exactly when it does, `BridgeWitnesses.TaskOvertakesAck` and `BridgeWitnesses.AlertOvertakesAck` are runs in which
  it does not.
- A connection's cleanup takes out its node's sender whoever owns it, so a node whose connections overlap may be
  connected and have none (`BridgePresence.SenderPresentIff`, `BridgeWitnesses.OverlapLosesSender`).
- The correlation of a task is looked up by task id alone, so an acknowledgement from the wrong node takes the
  command of a task that stays queued (`BridgeWitnesses.ForeignNodeGetsCommand`,
  `BridgeAcks.QueuedTaskHasCommandIff`). For acknowledgements of a still-queued
  task by its own node the delivery guarantee is `BridgeAcks.AckedTaskDeliversItsCommand`.
- A `disconnect` that slips in after the membership check of the reconnect loop does not stop the redial, and the
  connection is reported as disconnected twice (`Reconnect.RedialReportsOnceIff`,
  `Reconnect.LateDisconnectReportsTwice`).
- The outbound channel is documented to survive across reconnections. It does not survive an early `disconnect`:
  everything still queued is dropped (`Reconnect.DroppedWhenReceiverGoes`, `Reconnect.EarlyDisconnectDropsQueue`).
- One hop over the wire is a normal form except for a track with an empty classification and a non-zero
  confidence (`Translation.HopIsIdempotentIff`).
- Encoding truncates the length to 32 bits, and neither encoder enforces the 16 MiB limit the decoder does; a frame
  survives exactly when its payload fits (`Codec.RoundTripIffFits`).
- Backoff delays grow only when the initial delay is within the maximum; the first one is not clamped
  (`Connection.DelaysGrowIff`).

## Model

| member | source | states |
|---|---|---|
| BridgeTasks.NoTaskIsLost | peat-sapient/src/bridge.rs:267-287 | In every interleaving, once a `send_task` has returned and the connection now published for its node has finished its replay, a task still queued has been offered to that connection once or twice |
| BridgeTasks.NeverOfferedThrice | peat-sapient/src/bridge.rs:382-409 | No task is handed to one connection's channel more than twice, nor more than once before that connection took its snapshot |
| BridgeTasks.AlwaysStep | peat-sapient/src/bridge.rs:251-475 | Every step of every thread keeps: locks held as the program counters say, queued tasks put there by a sender of that node, a published sender belongs to a connection registered as that node, live sends aim at the published connection |
| BridgeTasks.WhenUniqueStep | peat-sapient/src/bridge.rs:251-475 | With unique task ids every step also keeps queues free of duplicates and the lower and upper bounds on offers |
| BridgeTasks.SendersAdvance | peat-sapient/src/bridge.rs:251-290 | Senders are only added, never change their task, and only move forward |
| BridgeTasks.QueueEffect | peat-sapient/src/bridge.rs:267-280 | Queues only lose tasks, except that an enqueue adds the sender's own task for its own node |
| BridgeLocks.LocksStep | peat-sapient/src/bridge.rs:251-475 | Every step keeps: `task_queue` is held across steps exactly by the threads about to purge commands, and `connections` exactly by the `send_task` or `send_alert_ack` waiting for channel room |
| BridgeLocks.NoDeadlock | peat-sapient/src/bridge.rs:251-475 | While any `send_task`, `send_alert_ack` or handler is in the middle of its work, some thread, some writer or the application can step |
| BridgeLocks.WorkShrinks | peat-sapient/src/bridge.rs:251-475 | Every step of the bridge's own threads, a writer or the application uses up a finite amount of work |
| BridgeLocks.BridgeFinishes | peat-sapient/src/bridge.rs:251-475 | After any run the internal steps that can follow are bounded in number, and when none is left every `send_task` and `send_alert_ack` has returned and every handler is reading or closed |
| BridgeLocks.BoundedStep | peat-sapient/src/task_queue.rs:56-82 | No queue of the bridge ever exceeds max(1, depth) |
| BridgeQueues.DepartureHasItsReason | peat-sapient/src/task_queue.rs:56-120 | In every step a queued task leaves its queue if and only if its node's acknowledgement is dequeued, a drain runs later than its `send_task` enqueued it plus the TTL, or it is the oldest of the unexpired tasks of a node whose depth they fill when another is enqueued |
| BridgeQueues.TaskStaysUntilReason | peat-sapient/src/bridge.rs:267-280 | Over every run, once enqueued, a task is queued for its node if and only if no step had one of these three reasons to take it out |
| BridgeQueues.ChannelsAreBounded | peat-sapient/src/bridge.rs:356 | In every reachable state each write channel holds at most 64 messages and the update channel at most 256 |
| BridgeQueues.SendsWaitWhileFull | peat-sapient/src/bridge.rs:187 | A send waits exactly while its channel is full: 64 messages in a write channel whose writer is alive, 256 in the update channel |
| BridgeQueues.ChannelsKeepTheirMessages | peat-sapient/src/bridge.rs:355-365 | Over every run, while its writer lives the messages offered to a connection are those its writer took, one a step, and those that wait; and so for the updates and the application |
| BridgeCommands.CoveredStep | peat-sapient/src/bridge.rs:259-280 | Every key of `task_commands` stays the id of a queued task or of an operation between its two lock sections |
| BridgeCommands.CommandsAreBounded | peat-sapient/src/bridge.rs:395-457 | In every reachable state the map is no larger than nodes times max(1, depth) plus the ids in flight |
| BridgeDelivery.CommandsAreConserved | peat-sapient/src/bridge.rs:259-458 | Each command given to `send_task` is in exactly one place: not inserted, in the map, in a handler's hand, delivered, or purged with its lost task; no place holds one that was not given |
| BridgeDelivery.ConservedStep | peat-sapient/src/bridge.rs:251-475 | Every step keeps that balance |
| BridgeDelivery.CommandDeliveredAtMostOnce | peat-sapient/src/bridge.rs:432-458 | Of all acknowledgements of one task at most one carries a command, and it is the one the task was sent with |
| BridgeAcks.AckedTaskDeliversItsCommand | peat-sapient/src/bridge.rs:432-458 | Once a still-queued task is acknowledged by its node its command is never purged; the first lookup from then on finds it, every later one finds nothing |
| BridgeAcks.AckSettles | peat-sapient/src/bridge.rs:432-441 | Acknowledging a queued task takes its only copy out of the queues, and it had not been lost |
| BridgeAcks.DoomedStep | peat-sapient/src/bridge.rs:267-280 | A task whose command is being purged has been enqueued and is in no queue, after every step |
| BridgeAcks.QueuedTaskHasCommandIff | peat-sapient/src/bridge.rs:432-457 | In every reachable state a task still queued has lost its command if and only if some acknowledgement, in hand or delivered, carries it |
| BridgeTraces.TraceShape | peat-sapient/src/bridge.rs:367-475 | Leaving live tasks aside, a connection queues nothing before its RegistrationAck, then exactly that and a prefix of its snapshot, all of it once it reads again; the snapshot is in enqueue order and unexpired at the drain (`BridgeConnections.SnapshotIsQueueAtDrain` says whose it is); one final NodeDisconnected if and only if closed after registering |
| BridgeTraces.OneGoneEach | peat-sapient/src/bridge.rs:458-475 | The application receives each update as often as handlers emitted it, and NodeDisconnected of a node once per closed connection registered as it |
| BridgeReports.ReportsWhatItHeard | peat-sapient/src/bridge.rs:411-458 | In every reachable state a connection has reported to the application, in order and its final disconnect left aside, the update of each message it heard that was routed to one, with at most the newest still in hand and commands of acknowledgements filled in; it is registered as the sender of its first Registration |
| BridgeReports.DetectionsReachTheApplication | peat-sapient/src/bridge.rs:411-458 | Over every run the Detected updates of a node that were sent to the application or are about to be number exactly those that routing let through |
| BridgeTraces.HandlerKeepsOffers | peat-sapient/src/bridge.rs:382-409 | Every handler step keeps the acknowledgement-then-replay shape of its offers |
| BridgeTraces.HandlerKeepsUpdates | peat-sapient/src/bridge.rs:458-475 | Every handler step keeps this shape: one NodeDisconnected of the registered node, last, if and only if closed after registering (`BridgeReports.ReportsWhatItHeard` says what the other updates are) |
| BridgeTraces.SnapshotsStep | peat-sapient/src/bridge.rs:395-406 | Every step keeps queues in enqueue order with one TTL, and snapshots ordered and unexpired, whatever runs between the drain and the purge |
| BridgeConnections.AckComesFirstIff | peat-sapient/src/bridge.rs:378-393 | In every reachable state a connection not yet published has been offered nothing, and its first offer is its RegistrationAck if and only if no `send_task` and no `send_alert_ack` queued its message while that acknowledgement waited |
| BridgeConnections.FirstStep | peat-sapient/src/bridge.rs:382-393 | In each step only a live send during that wait makes something else the first offer |
| BridgeConnections.OnlyItsOwnOffers | peat-sapient/src/bridge.rs:283-322 | No misdelivery: whatever a connection was offered or still has to replay is its own RegistrationAck or the message of a `send_task` or a `send_alert_ack` for the node it registered as |
| BridgeConnections.SnapshotIsQueueAtDrain | peat-sapient/src/bridge.rs:395-406 | Whatever runs between the drain and the purge, the connection replays its node's queue as the drain left it |
| BridgePresence.SenderPresentIff | peat-sapient/src/bridge.rs:382-389 | In every reachable state a node has a published sender if and only if some connection serves it that was not displaced by another of the same node publishing itself or cleaning up, and it is that connection's |
| BridgePresence.OwnsStep | peat-sapient/src/bridge.rs:467-468 | In each step a serving connection keeps its entry until it is displaced |
| BridgePresence.PresentIffConnected | peat-sapient/src/bridge.rs:467-468 | In runs where connections of one node never overlap: sender present if and only if connected |
| BridgeWitnesses.TaskOvertakesAck | peat-sapient/src/bridge.rs:384-393 | A run from the start after which a task is the first thing queued on a connection and the acknowledgement still waits |
| BridgeWitnesses.AlertOvertakesAck | peat-sapient/src/bridge.rs:296-322 | A run from the start, without any `send_task`, after which an alert acknowledgement was queued before the RegistrationAck |
| BridgeAlerts.AlertSentOnceIff | peat-sapient/src/bridge.rs:296-322 | In every reachable state a `send_alert_ack` has been offered exactly once, over all connections, if it has returned and found its node connected, and never otherwise |
| BridgeWitnesses.ForeignNodeGetsCommand | peat-sapient/src/bridge.rs:451-457 | A run from the start after which node b is delivered the command of a task that stays queued for node a |
| BridgeWitnesses.OverlapLosesSender | peat-sapient/src/bridge.rs:467-468 | A run from the start after which a connected node has no published sender |
| BridgeRegistry.RangeBearingNeverMaps | peat-sapient/src/bridge.rs:411-427 | In no run does an admitted range-bearing detection become an update on the bridge |
| BridgeRegistry.RouteDecides | peat-sapient/src/bridge.rs:411-448 | A message refreshes its node if and only if it is a registration, a status report, or an admitted detection that can be placed; an acknowledgement dequeues its task whatever its status |
| BridgeRegistry.LastSeenIsLastRefresh | peat-sapient/src/registry.rs:26-31 | In every reachable state a node is listed exactly when it was heard since a handler or the watchdog last took it out, and `last_seen` is the instant of its last refreshing message |
| BridgeRegistry.RegistryEffect | peat-sapient/src/bridge.rs:415-469 | A handler changes the registry only to refresh its message's node (instant, position kept, capability replaced only when given) and to remove its own node on leaving |
| TaskQueues.TaskQueue.constructor | peat-sapient/src/task_queue.rs:42-48 | A fresh queue is empty and agrees with an empty log |
| TaskQueues.TaskQueue.Enqueue | peat-sapient/src/task_queue.rs:56-82 | The new map, the evicted id and the new log entry; the pending list keeps agreeing with the log |
| TaskQueues.TaskQueue.Ack | peat-sapient/src/task_queue.rs:88-92 | Removes every copy of the id from that node alone, a no-op otherwise; the log marks them acked |
| TaskQueues.TaskQueue.DrainExpired | peat-sapient/src/task_queue.rs:100-120 | Keeps exactly the tasks with now <= enqueued + TTL, of every node, and returns exactly the ids of those with now > enqueued + TTL, queue by queue in some order of the map |
| TaskQueues.TaskQueue.PendingFor | peat-sapient/src/task_queue.rs:127-132 | Returns the messages of the log's pending entries in insertion order and changes nothing |
| TaskQueues.TaskQueue.IsEmptyFor | peat-sapient/src/task_queue.rs:135-140 | True exactly when no log entry of the node is pending |
| TaskQueues.RetainLive | peat-sapient/src/task_queue.rs:100-120 | The loop over an unordered map meets the functional drain for one iteration order |
| TaskQueues.EnqueueKeepsLogGood | peat-sapient/src/task_queue.rs:56-82 | Enqueueing commutes with the log, whose entries stay in time order, losses first, each loss with its cause, and at most max(1, depth) pending |
| TaskQueues.AckKeepsLogGood | peat-sapient/src/task_queue.rs:88-92 | Acknowledging keeps the log good |
| TaskQueues.DrainKeepsLogGood | peat-sapient/src/task_queue.rs:100-120 | Draining keeps the log good |
| TaskQueues.ZeroDepthHoldsOne | peat-sapient/src/task_queue.rs:63-80 | With depth zero the queue holds exactly the task enqueued last |
| TaskQueues.PendingIsSuffixLessAcked | peat-sapient/src/task_queue.rs:24-34 | The pending list is a suffix of the enqueue log with acked tasks left out; nothing before the suffix is pending |
| TaskQueues.OpenOrdered | peat-sapient/src/task_queue.rs:122-132 | Pending tasks are in enqueue order and share one TTL |
| TaskQueues.DrainRemovesPrefix | peat-sapient/src/task_queue.rs:100-120 | A drain removes exactly a prefix of an ordered queue, and that prefix is what it reports |
| TaskQueues.DrainReportsExpired | peat-sapient/src/task_queue.rs:94-120 | An id is returned by a drain if and only if some queued task with that id has now > enqueued + TTL |
| TaskQueues.DrainKeepsLive | peat-sapient/src/task_queue.rs:94-120 | A task is queued after a drain if and only if it was queued before and now <= enqueued + TTL |
| RateLimit.ConsumeIsExact | peat-sapient/src/rate_limit.rs:39-51 | One call admits exactly when, counting back to every earlier admission, the admissions since and this one fit burst + rate * time; a denied call changes no later decision |
| RateLimit.LimiterIsExactPerNode | peat-sapient/src/rate_limit.rs:73-82 | Over any interleaving of nodes, each decision is that of the specification on the node's own requests |
| RateLimit.DisabledAdmitsAll | peat-sapient/src/rate_limit.rs:63-76 | With a zero rate or burst nothing is dropped |
| RateLimit.BlockBound | peat-sapient/src/rate_limit.rs:39-51 | Any block of consecutive admissions is bounded by burst + rate * its duration |
| RateLimit.WindowBound | peat-sapient/src/rate_limit.rs:1-6 | Any window of length w admits at most burst + rate * w |
| RateLimit.DetectionLimiter.constructor | peat-sapient/src/rate_limit.rs:63-70 | A fresh limiter has seen no request and is enabled exactly for positive rate and burst |
| RateLimit.DetectionLimiter.Check | peat-sapient/src/rate_limit.rs:73-82 | The in-place update decides as the specification does on this node's earlier requests |
| Routing.TaskIdIsExtractedIff | peat-sapient/src/bridge.rs:505-524 | A message can be sent as a task exactly when it carries a Task with a non-empty id |
| Routing.RouteYields | peat-sapient/src/bridge.rs:537-614 | Each kind of update arises exactly from its own content, a detection exactly when admitted and placed, an error exactly for an admitted detection that cannot be placed; every update naming a node names the sender |
| Routing.UpdateCarries | peat-sapient/src/bridge.rs:541-574 | What an update carries, under the sender: the advertisement of a registration, ready; the place, health and power of a status report, and the status of its code exactly with a field of view or a mode; the object and place of a detection that is admitted |
| Routing.AcknowledgementMeans | peat-sapient/src/bridge.rs:44-55 | An acknowledgement is reported under its sender and task id as accepted for code 1, rejected for 2, completed for 3, and failed otherwise |
| Routing.RefusalMeans | peat-sapient/src/bridge.rs:505-524 | A message that cannot be sent as a task is refused for lack of an id if it carries a Task, and for lack of a Task otherwise |
| Routing.RunBridgeSubscriber | peat-mesh-sapient/src/subscriber.rs:41-80 | Publishes, in order, one document per Registered, StatusUpdated and Detected update and nothing else |
| Routing.DetectionIsChecked | peat-sapient/src/bridge.rs:562-572 | Behind the one shared limiter a detection is admitted exactly when it fits its own node's earlier admissions; other messages and nodes leave them alone |
| Routing.BoundedDetections | peat-sapient/src/bridge.rs:562-572 | Over any interleaving of all connections and nodes, the detections of one node that are routed in any window of length w number at most burst + rate * w |
| BridgeDetections.RunDetects | peat-sapient/src/bridge.rs:411-412 | A run of the bridge whose admissions the shared limiter decides detects exactly what that limiter lets through, in routing order |
| BridgeDetections.BoundedOnTheBridge | peat-sapient/src/bridge.rs:411-412 | In every such run, whatever the handlers interleave, the detections routed for one node in any window of length w number at most burst + rate * w |
| Codec.Encode | peat-sapient/src/codec.rs:21-44 | Appends one frame and leaves what was there |
| Codec.Decode | peat-sapient/src/codec.rs:46-75 | None and an oversized prefix consume nothing; a complete frame is consumed whether or not it parses |
| Codec.RoundTripIffFits | peat-sapient/src/codec.rs:21-75 | Decoding an encoded payload, whatever follows it, gives back payload and rest exactly when the payload is at most 16 MiB |
| Codec.FrameLayout | peat-sapient/src/codec.rs:21-44 | A frame is the length, least significant byte first in four bytes and modulo 2^32, then the payload |
| Codec.HeadMeans | peat-sapient/src/codec.rs:50-67 | With b the first four bytes least significant first: too large above 16777216, incomplete below 4 + b bytes, otherwise the b bytes after the prefix |
| Codec.SuccessConsumesOneFrame | peat-sapient/src/codec.rs:46-75 | A success removes exactly the frame of its payload, 4 + len bytes, from the front |
| Codec.AppendKeepsHead | peat-sapient/src/codec.rs:50-67 | Appended bytes never change a complete frame or a refusal |
| Codec.DrainSplits | peat-sapient/src/codec.rs:46-75 | Draining all at once equals draining a prefix and then the rest |
| Codec.FragmentationIsInvisible | peat-sapient/src/codec.rs:46-75 | For any bytes, valid or not, the way they are cut into chunks changes neither the payloads nor the bytes left over |
| Codec.StreamSurvivesAnyChunking | peat-sapient/src/codec.rs:21-75 | Any payloads within the limit, encoded and delivered in any chunks, come out in order with an empty buffer |
| Codec.ChunkingChangesNothingRead | peat-sapient/src/bridge.rs:367-374 | For any bytes, a reader that parses and stops at the first error gets the same messages and ends with the same error, or the same bytes left, however they are cut into chunks |
| Codec.MessagesSurviveAnyChunking | peat-sapient/src/codec.rs:21-75 | Any messages that survive serialisation and fit the limit are read in order with nothing left over, in any chunks |
| Connection.ConnectWithRetry | peat-sapient/src/connection.rs:59-74 | Ends at the first success; the sleep after failure n + 1 is the closed form |
| Connection.NextDelay | peat-sapient/src/connection.rs:67-71 | The loop's update of the delay computes the closed form min(initial * 2^n, max) with an unclamped first delay |
| Connection.DelaysGrowIff | peat-sapient/src/connection.rs:63-71 | Delays never shrink if and only if the initial delay is within the maximum |
| Connection.TotalSleptBounds | peat-sapient/src/connection.rs:59-74 | The total slept after n failures is at most initial * (2^n - 1) and at most initial + (n - 1) * max |
| Registry.NodeRegistry.constructor | peat-sapient/src/registry.rs:35-37 | A fresh registry is empty |
| Registry.NodeRegistry.Upsert | peat-sapient/src/registry.rs:44-66 | Always refreshes last_seen; capability and position change only when given |
| Registry.NodeRegistry.GetPosition | peat-sapient/src/registry.rs:70-76 | Returns the last position given to the node since it was last absent, and none exactly when none was given |
| Registry.EntryIsLastGiven | peat-sapient/src/registry.rs:44-86 | Over any history of upserts and removals a node is present exactly when the last operation on it was an upsert, whose instant it carries, with the last position given since it was last absent |
| Registry.CapabilityIsLastGiven | peat-sapient/src/registry.rs:44-86 | Over any such history an entry carries its own node's id, and the capability last given since the node was last absent, none exactly when none was |
| Registry.NodeRegistry.Remove | peat-sapient/src/registry.rs:84-86 | Removes that node and no other |
| Registry.NodeRegistry.Sweep | peat-sapient/src/watchdog.rs:31-53 | An undisturbed sweep removes exactly the nodes silent for two intervals and reports each once |
| Registry.WatchdogLatency | peat-sapient/src/watchdog.rs:25-54 | With ideal ticks every h, a node last heard at s and silent since is reported exactly once, at or after s + 2h and before s + 3h |
| Registry.PaidThroughout | peat-sapient/src/watchdog.rs:34-52 | Every step of a sweep interleaved with the bridge keeps events paid for by insertions |
| Registry.DisconnectsNeverExceedInsertions | peat-sapient/src/watchdog.rs:34-52 | However upserts and removals interleave with a sweep, a node's disconnect events never exceed its absent-to-present insertions |
| Registry.EachRemovalIsReported | peat-sapient/src/watchdog.rs:44-52 | Over any interleaving a node is reported as often as sweeps took it out, but for the report about to be sent |
| Registry.SweepRemovesItsSnapshot | peat-sapient/src/watchdog.rs:34-52 | Once worked through, a sweep has taken out, once each and whatever the bridge did meanwhile, exactly the nodes whose last_seen was at least two intervals old at its snapshot, even one heard since |
| MeshFields.TrackToFields | peat-sapient/src/mesh_fields.rs:36-67 | Builds exactly the track projection: zero altitude and empty texts are left out |
| MeshFields.TrackProjectionKernel | peat-sapient/src/mesh_fields.rs:36-67 | Two tracks project to the same fields if and only if they agree on position, millisecond timestamp, classification, confidence and source node, an absent source counting as an empty node id |
| MeshFields.TrackFieldsAre | peat-sapient/src/mesh_fields.rs:36-67 | Which fields a track has and what each holds: lat, lon and non-zero hae of its position, timestamp, confidence, non-empty classification and source node |
| MeshFields.MillisMean | peat-sapient/src/mesh_fields.rs:47-52 | A timestamp is published as 1000 * seconds + nanos / 1000000 whenever that fits 63 bits; beyond it the seconds saturate and the sum wraps |
| MeshFields.NamesTellApart | peat-sapient/src/mesh_fields.rs:69-101 | No two operational statuses, healths or phases share a published name |
| MeshFields.PlatformToFields | peat-sapient/src/mesh_fields.rs:113-160 | Builds exactly the platform projection: empty capabilities and unspecified status are left out |
| MeshFields.DeltaIsWhatIsAsserted | peat-sapient/src/mesh_fields.rs:113-160 | A message's projected fields are exactly what the message itself asserts, field by field |
| MeshFields.MergedFieldIsLastAsserted | peat-sapient/src/mesh_fields.rs:126-160 | Over any run the merged document holds for each field what the last message asserting it asserted, and lacks it exactly when none did |
| MeshFields.PositionIsNeverMixed | peat-sapient/src/transform/status.rs:32-50 | Latitude and longitude of the merged document come from one and the same report |
| MeshFields.HeartbeatKeepsStanding | peat-sapient/src/transform/status.rs:56-107 | A pure heartbeat never alters capabilities or operational status |
| Transforms.ReportedIsPlace | peat-sapient/src/transform/status.rs:32-50 | A report places its node if and only if x and y are present and the system is degrees or radians; x is the longitude, y the latitude, z or zero the altitude |
| Transforms.StatusReportMeans | peat-sapient/src/transform/status.rs:13-107 | A report becomes that place, the health of its code, its power level clamped to 0..100, and a delta under its own node, with the status of its code, exactly with a field of view or a mode |
| Transforms.RegistrationMeans | peat-sapient/src/transform/registration.rs:34-90 | A registration advertises its own node as ready, with one capability per recognised node type, in order |
| Transforms.DetectedPlaceMeans | peat-sapient/src/transform/detection.rs:220-358 | A detected location in each coordinate system: degrees or radians, metres or feet (0.3048), UTM with a known zone; the error of each that does not resolve |
| Transforms.RangeBearingMeans | peat-sapient/src/transform/detection.rs:69-130 | A range and bearing in each coordinate system: metres, kilometres (1000) or feet (0.3048), degrees or radians, level without an elevation; the error of each that does not resolve |
| Transforms.DetectionMeans | peat-sapient/src/transform/detection.rs:432-515 | A detection becomes a track of its sender, object, report and first classification at the place it was detected, and fails exactly when that place cannot be resolved |
| Translation.SapientTranslator.DecodeInbound | peat-mesh-sapient/src/translator.rs:162-214 | Returns what the mapping says and keeps the cache equal to the history's; malformed bytes change nothing |
| Translation.SapientTranslator.CachePosition | peat-mesh-sapient/src/translator.rs:67-72 | Overwrites that node's position alone |
| Translation.SapientTranslator.CachedPosition | peat-mesh-sapient/src/translator.rs:74-80 | The position of the node's last resolvable report in the history, none exactly when there was none |
| Translation.CacheIsLastFix | peat-mesh-sapient/src/translator.rs:67-80 | Over any run a node is cached with its own last resolvable position, other nodes never interfering |
| Translation.RangeBearingUsesLastFix | peat-mesh-sapient/src/translator.rs:177-207 | A range-bearing detection is placed from its node's last fix and fails exactly when there never was one |
| Translation.DocumentIds | peat-mesh-sapient/src/translator.rs:162-214 | A platform document has its sender's id and a track document its object's, empty when absent |
| Translation.OneMessageOnBothPaths | peat-mesh-sapient/src/subscriber.rs:41-80 | The bridge and the translator publish the same for one message, except a range-bearing detection with a cached position |
| Translation.PathsAgreeIff | peat-mesh-sapient/src/translator.rs:107-214 | Over any run both paths publish the same collections, ids and fields if and only if there is no such detection |
| Translation.EncodedMeans | peat-mesh-sapient/src/translator.rs:107-160 | Exactly a track document with an id and numeric lat and lon is sent: from the local wire id, longitude as x, latitude as y, altitude or zero, in degrees and metres, with its classification and confidence |
| Translation.HopPreserves | peat-mesh-sapient/src/translator.rs:107-160 | Encoding and decoding a track keeps id, lat, lon, hae and any non-empty classification |
| Translation.HopIsIdempotentIff | peat-mesh-sapient/src/translator.rs:107-207 | A second hop changes nothing if and only if the track had no empty classification with non-zero confidence |
| Reconnect.OutboundIsConserved | peat-mesh-sapient/src/transport.rs:374-432 | In any run the messages put are, in order, those each connection got accepted plus at most one it lost to a failed send or an abort, then the one being sent, those dropped with the receiver, and those queued; only an early disconnect drops any |
| Reconnect.DroppedWhenReceiverGoes | peat-mesh-sapient/src/transport.rs:515-530 | Nothing is dropped while the receiver is alive, and everything not taken is once it is gone |
| Reconnect.EndingHasItsCause | peat-mesh-sapient/src/transport.rs:383-432 | Over every run a connection has ended as lost, as failed to send or as aborted if and only if the run holds the peer's loss, a failed send or the abort on it, and is live otherwise |
| Reconnect.PeerServesLive | peat-mesh-sapient/src/transport.rs:383-432 | In every reachable state the peer loop is taking or sending messages exactly for a connection that is live |
| Reconnect.SentThenNext | peat-mesh-sapient/src/transport.rs:421-427 | After a successful send the peer loop serves the same live connection, which has one more message accepted, and the next one it takes is the next one queued |
| Reconnect.ChannelIsBounded | peat-mesh-sapient/src/transport.rs:165 | The outbound channel never holds more than 64 messages |
| Reconnect.PutWaitsWhileFull | peat-mesh-sapient/src/transport.rs:165 | While the receiver lives a writer waits exactly while 64 messages are queued |
| Reconnect.EarlyDisconnectDropsQueue | peat-mesh-sapient/src/transport.rs:515-530 | A run from the start in which no connection loses anything and a queued message is gone |
| Reconnect.NoneMissingStep | peat-mesh-sapient/src/transport.rs:374-533 | Every step keeps that equation, receiver hand-overs included |
| Reconnect.MembershipStep | peat-mesh-sapient/src/transport.rs:505-533 | Every step keeps the peer record in step with the connect loop and the disconnect that removed it |
| Reconnect.EventsStepAt | peat-mesh-sapient/src/transport.rs:436-458 | Every step keeps the exact count of Connected and Disconnected events of every connection |
| Reconnect.EarlyDisconnectIsFinal | peat-mesh-sapient/src/transport.rs:505-533 | After a disconnect that precedes the membership check the loop never dials again and emits no event of its own |
| Reconnect.EarlyDisconnectFinishes | peat-mesh-sapient/src/transport.rs:505-533 | After it at most 11 winding-up steps follow in any run, and when none is left the loop has ended with exactly one Disconnected event, by the abort or by the returned receiver |
| Reconnect.LostConnectionIsRedialed | peat-mesh-sapient/src/transport.rs:517-533 | A connection lost without an early disconnect is wound up in at most 11 steps, after which the loop dials |
| Reconnect.ClosingIsBounded | peat-mesh-sapient/src/transport.rs:460-533 | However puts, sends and other calls interleave, the winding-up steps of a run are bounded by a constant per dial |
| Reconnect.QuietLoop | peat-mesh-sapient/src/transport.rs:460-533 | With nothing left to wind up the loop waits for a live registered connection, dials, or has ended after an early disconnect |
| Reconnect.OnlyEarlyDisconnectEndsLoop | peat-mesh-sapient/src/transport.rs:508-529 | Nothing else ends the loop |
| Reconnect.RedialReportsOnceIff | peat-mesh-sapient/src/transport.rs:517-533 | A connection left behind was announced once and reported once by the loop; a second report exists exactly when a late disconnect ran to its end |
| Reconnect.LateDisconnectReportsTwice | peat-mesh-sapient/src/transport.rs:783-798 | The run in which that happens |

## Left out

- TCP, TLS, listeners, and the TLS copies of the connect and accept loops: I/O; the plain variants have the same logic.
- Protobuf parsing: a parameter of `Codec.Decode`; the mesh paths start from parsed messages.
- `FramedRead`: modelled as append-then-decode (`Feed`, `ReadChunks`) around the decoder; its end-of-stream handling is
  not.
- `send_task`, `run_connection`, the connect loop and the peer loop are step systems, not methods: their meaning is in
  their interleavings, and one call run alone would lose it. One lock section is one step.
- Lock fairness and scheduling: `BridgeFinishes` bounds what can happen, not how soon.
- Calls whose futures are dropped before they complete: every `send_task` and `send_alert_ack` runs to its end. Dropping
  a `send_task` between its insert and its enqueue would leave the correlation behind.
- The payload of an alert acknowledgement beyond its alert id.
- The update receiver being dropped, after which update sends return at once; it only shortens waits.
- The watchdog's timing inside the bridge's step system, where it may take out any node at any step; `Registry` has the
  timed sweeps and their interleaving with upserts and removals.
- A bridge without a limiter: these are the runs in which `admitted` is always true; nothing is stated of them apart.
- f32 and f64 rounding, NaN and infinities: fields and token counts are real numbers.
- Trigonometry, the inverse UTM projection and the range-bearing offset: parameters (`Geodesy`).
- Resource and battery figures in the projections, task acknowledgement reasons, alert payloads and the bodies of tasks
  beyond their id: carried by the code without being inspected.
- The peat-mesh merge itself: taken as field-wise override, as the comment in `mesh_fields.rs` states; peat-mesh and
  peat-schema are not part of this model.
- HLDMM accept loop and its peers, `stop()`, and the `alive` flag: no clean guarantee in the code.
- Routing.BoundedDetections: bounds the instants of routing; an update may then wait for room in the update channel, so
  what the application receives in a window can be more.
- BridgeLocks.LocksStep: has no owner for `task_commands`, which the code never holds across a wait; each of its
  sections is one step.
- Track velocity, state, attributes and position errors, which no projection carries.
- Events to slow listeners: `try_send` may drop one; the model counts emissions.
- Duration and Instant overflow and saturation: clocks are monotonic and unbounded.
- Connection.ConnectWithRetry: takes the outcomes of the dials as an input, where the code dials for ever.
