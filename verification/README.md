# Verified model of the EtherCAT PDO middleware

A Dafny model of the middleware that carries EtherCAT process data objects (PDOs) between
shared-memory queues and DDS or Zenoh, with proofs of what it keeps over whole runs. To check it:
`dafny verify dfyconfig.toml`.

## What is modelled

**Receive path.** `ReceiveCache` holds the per-channel cache: 256 slots addressed by EtherCAT ID and
the list of IDs in use, updated in place, proved to refine the plain log of what was drained.
`Selection` says, on logs alone and without flags or bitsets, what a subscription is given in a
cycle; `AdapterPublishers` proves that the loops over arrays, lists and masks give exactly that, for
any number of cycles and registrations. `Messages` has the struct-of-arrays messages and their
converters, `DdsAssembler` and `ZenohAssembler` the two backends' own switches over PDO types,
`Publishers` the cycle protocol on top of them; the publisher interface of the source is one class
tagged with its backend. `MessageContents` says what every column of a message holds. `PublishedHistory` puts these together: what has been written after any run.

**REPL service.** `ReplService` has the transaction over ZeroMQ as the adapter performs it, and the
protocol as a step system: concurrent callers, the adapter's lock, a network that delays or drops,
the master. Messages carry no identifier, only the socket they travel on.

**Supervisor.** `Supervisor` interleaves `start`, with or without waiting, `stop`, worker threads,
health failures and signals on one running flag. Time is left out: whether a health check is due is
arbitrary.

**Commands.** `ZenohSubscriber` is the bounded queue between a transport thread and the polling
thread, `Commands` the decoding and conversion of command messages, `CommandQueues` the two ways of
pushing them. The transport's answers are an arbitrary function of the number of the push, and
`sent` is everything queued, each entry with the channel whose queue it went to.

**Start-up.** `Discovery` polls the queues until all requested IDs have been seen, `Wiring` turns the
discovered map into registrations for any iteration order of the map, `Startup` composes the two with
the adapter and says what is written from then on.

**Kernels.** `Text` (token expansion), `Decimal` (numbers in settings and device names) and `Clock`
(64-bit clock arithmetic, stamps, rates).

Protobuf accessors are modelled with their defaults: a missing payload reads as zeros. Floating-point
fields are `real`.

## Where the code and its intent part

The model follows the code, with one exception: the literal `0` pushed into the string column
`error_report` (plugins/advrf_dds_common/src/converter.cpp, lines 416 and 448) is modelled as the empty
string it is meant to be. Each of the other points is a lemma with its exact condition, and where there is
a failing input, one that names it.

- A joint state with a valve: the DDS publisher lists valve IDs but rejects their PDOs, Zenoh accepts
  them (`Publishers.BackendsAgree`, `Publishers.ValveSplitsBackends`).
- A CIA402 command over DDS loses its torque reference and its fifth gain, over Zenoh it does not
  (`Commands.SameBatchIff`, `Commands.TorqueIsDropped`).
- A termination signal that arrives before `start` is lost (`Supervisor.SignalHeeded`).
- Token expansion is one substitution only for directories in which no token starts or could start
  (`Text.PassesAgreeIff`, `Text.NothingLeftIff`, `Text.TokenInDirectory`).
- The documentation of discovery says it blocks until all IDs were observed; it also returns at once,
  with an empty map, when the transport is not healthy (`Discovery.Discover`).
- A worker reports its rate from the rounded period: never less than requested, but more for rates that
  are not 10^6 divided by a whole number (`Clock.ReportedRateIff`, `Clock.ReportedRateExceeds`).

## Model

| member | source | states |
|---|---|---|
| `Pdos.ChannelOrder` | core/advrf_middleware_core/include/advrf_middleware_core/utils/channel.hpp:17-27 | the receive channels in their order |
| `ReceiveCache.LatestForMeaning` | core/advrf_middleware_core/include/advrf_middleware_core/adapters/adapter_publishers.hpp:216-241 | the reference form of a cache slot is the PDO at the last position of the log whose header names the ID, and nothing exactly when no header does or the ID is 256 and above |
| `ReceiveCache.FirstSeenMeaning` | core/advrf_middleware_core/include/advrf_middleware_core/adapters/adapter_publishers.hpp:234-235 | the reference form of the index list holds exactly the IDs ever filed, each once, all below 256 |
| `ReceiveCache.FirstSeenOrder` | core/advrf_middleware_core/include/advrf_middleware_core/adapters/adapter_publishers.hpp:234-235 | the list grows only at its end: first-seen order is kept over any further PDOs |
| `ReceiveCache.LatestForConcat` | core/advrf_middleware_core/include/advrf_middleware_core/adapters/adapter_publishers.hpp:232-240 | a PDO of this cycle supersedes every earlier one, and an ID without one keeps its old PDO |
| `ReceiveCache.LogPushEffect` | core/advrf_middleware_core/include/advrf_middleware_core/adapters/adapter_publishers.hpp:216-241 | what one more PDO does to every slot and to the list: it goes to the slot of the index in its header; one without an index, or with one that is negative or 256 and above, changes nothing |
| `ReceiveCache.ChannelCache.constructor` | core/advrf_middleware_core/include/advrf_middleware_core/adapters/adapter_publishers.hpp:48-53 | an empty cache agrees with an empty log |
| `ReceiveCache.ChannelCache.StartCycle` | core/advrf_middleware_core/include/advrf_middleware_core/adapters/adapter_publishers.hpp:207-208 | resetting only the listed IDs clears the flag of every one of the 256 slots and changes nothing else |
| `ReceiveCache.ChannelCache.Receive` | core/advrf_middleware_core/include/advrf_middleware_core/adapters/adapter_publishers.hpp:216-241 | one received PDO: the slot of the index in its header holds it, valid and updated, every other slot is as it was, and the ID joins the list if the slot was empty; a PDO without an index from 0 to 255 changes nothing |
| `ReceiveCache.ChannelCache.Fill` | core/advrf_middleware_core/include/advrf_middleware_core/adapters/adapter_publishers.hpp:197-243 | a whole cycle: for any drained batch, slots (valid, updated, ID, PDO) and list agree with the log, flags reset and batch filed |
| `Selection.PickFromMeaning` | core/advrf_middleware_core/include/advrf_middleware_core/adapters/adapter_publishers.hpp:265-282 | what one channel delivers: the cycle's latest PDO of each updated, allowed ID not seen on an earlier channel, all of them, no ID twice |
| `Selection.PickedInOrder` | core/advrf_middleware_core/include/advrf_middleware_core/adapters/adapter_publishers.hpp:265-282 | and it delivers them in the order in which their IDs were first seen |
| `Selection.SelectedMeaning` | core/advrf_middleware_core/include/advrf_middleware_core/adapters/adapter_publishers.hpp:246-253 | what a subscription is given: every delivered PDO is the latest of its ID on the first listed channel where it arrived, every allowed ID that arrived is delivered, none twice |
| `Selection.DispatchTests` | core/advrf_middleware_core/include/advrf_middleware_core/adapters/adapter_publishers.hpp:265-282 | the three skip tests, read off a cache entry, decide exactly whether the channel delivers the ID, and the entry holds what it delivers |
| `AdapterPublishers.DispatchEntry` | core/advrf_middleware_core/include/advrf_middleware_core/adapters/adapter_publishers.hpp:268-280 | one entry is consumed and marked exactly if it is updated, allowed and not yet seen |
| `AdapterPublishers.DispatchNext` | core/advrf_middleware_core/include/advrf_middleware_core/adapters/adapter_publishers.hpp:265-282 | one step of the walk over the list keeps calls and seen IDs in agreement with the selection |
| `AdapterPublishers.DispatchCache` | core/advrf_middleware_core/include/advrf_middleware_core/adapters/adapter_publishers.hpp:265-282 | the loop over the index list consumes exactly what the channel delivers, in first-seen order |
| `AdapterPublishers.Adapter.RegisterPublisher` | core/advrf_middleware_core/include/advrf_middleware_core/adapters/adapter_publishers.hpp:133-168 | the mask is exactly the listed IDs below 256, all IDs are accepted only for an empty list, and earlier subscriptions are untouched |
| `AdapterPublishers.Adapter.FillCache` | core/advrf_middleware_core/include/advrf_middleware_core/adapters/adapter_publishers.hpp:197-243 | all seven channels, each by its own batch and independent of the others |
| `AdapterPublishers.Adapter.DispatchTo` | core/advrf_middleware_core/include/advrf_middleware_core/adapters/adapter_publishers.hpp:246-261 | a publisher gets exactly begin, the selection, end; end says valid exactly when the consumed IDs are the allowlist (any at all when all are accepted) |
| `AdapterPublishers.Adapter.Dispatch` | core/advrf_middleware_core/include/advrf_middleware_core/adapters/adapter_publishers.hpp:246-262 | every subscription is served for this cycle and none affects another |
| `AdapterPublishers.Adapter.SpinOnce` | core/advrf_middleware_core/include/advrf_middleware_core/adapters/adapter_publishers.hpp:99-105 | over every run, caches and every publisher's calls stay in agreement with the history of inputs; without a healthy transport nothing happens |
| `PublishedHistory.CycleWrites` | plugins/advrf_cyclonedds_plugin/include/advrf_cyclonedds_plugin/adapters/dds_pdo_publisher.hpp:51-80 | a cycle writes only what it consumed itself, and only if it is valid |
| `PublishedHistory.WrittenHistory` | core/advrf_middleware_core/include/advrf_middleware_core/adapters/adapter_publishers.hpp:99-282 | after any run of registrations and cycles a publisher has written exactly the complete cycles since its registration, whatever other subscriptions exist |
| `PublishedHistory.CompleteMeansAllReceived` | core/advrf_middleware_core/include/advrf_middleware_core/adapters/adapter_publishers.hpp:255-260 | an allowlisted cycle is complete if and only if every allowed ID was received in that very cycle |
| `PublishedHistory.AnyReceivedMeansComplete` | core/advrf_middleware_core/include/advrf_middleware_core/adapters/adapter_publishers.hpp:255-260 | a cycle that accepts all IDs is complete if and only if something was received in it from a device below 256 |
| `PublishedHistory.ConsumedAreDrainedNow` | core/advrf_middleware_core/include/advrf_middleware_core/adapters/adapter_publishers.hpp:265-282 | everything consumed was drained in the same cycle on a listed channel under an allowed ID |
| `PublishedHistory.ConsumedIff` | core/advrf_middleware_core/include/advrf_middleware_core/adapters/adapter_publishers.hpp:265-282 | a publisher gets a PDO of a device in a cycle if and only if the device is allowed and a header named it in that cycle |
| `PublishedHistory.ConsumedIsNewest` | core/advrf_middleware_core/include/advrf_middleware_core/adapters/adapter_publishers.hpp:216-282 | everything consumed is the newest PDO whose header names its device in this cycle's batch of the first listed channel that carries the device |
| `PublishedHistory.DdsWritesCompleteCycles` | plugins/advrf_cyclonedds_plugin/include/advrf_cyclonedds_plugin/adapters/dds_pdo_publisher.hpp:51-80 | a DDS publisher with an allowlist writes if and only if every allowed ID was received in this cycle and some consumed PDO has an accepted type; then one nonempty message whose rows are this cycle's accepted PDOs |
| `PublishedHistory.ZenohWritesCompleteCycles` | plugins/advrf_zenoh_plugin/include/advrf_zenoh_plugin/adapters/zenoh_adapter_bridge.hpp:53-81 | a Zenoh publisher with an allowlist writes in CDR if and only if every allowed ID was received in this cycle and the consumed PDOs can all be serialized; then one message holding every one |
| `PublishedHistory.ZenohFramesCompleteCycles` | plugins/advrf_zenoh_plugin/include/advrf_zenoh_plugin/adapters/zenoh_adapter_bridge.hpp:63-94 | in Protobuf one frame for each PDO consumed in a complete cycle, each from another device, none in an incomplete one |
| `PublishedHistory.OneRowPerDevice` | core/advrf_middleware_core/include/advrf_middleware_core/adapters/adapter_publishers.hpp:265-282 | whatever the filter, a message assembled from a cycle has one row per device: the headers of the accepted PDOs name different devices, and all were drained in that cycle |
| `PublishedHistory.ReportFromCycle` | core/advrf_middleware_core/include/advrf_middleware_core/adapters/adapter_publishers.hpp:246-262 | every report of a run comes from one of its cycles |
| `PublishedHistory.NothingFromEmptyMask` | core/advrf_middleware_core/include/advrf_middleware_core/adapters/adapter_publishers.hpp:148-162 | IDs that are all 256 and above leave an empty mask: every cycle counts as complete, and yet nothing is ever written |
| `PublishedHistory.QuietCycleWritesNothing` | plugins/advrf_cyclonedds_plugin/include/advrf_cyclonedds_plugin/adapters/dds_pdo_publisher.hpp:70-80 | a cycle without new PDOs writes nothing although the caches still hold old ones |
| `Messages.MotorColumns.Pushed` | plugins/advrf_dds_common/src/converter.cpp:361-449 | pushing one value to each of the 19 value columns and a name keeps all 20 columns aligned and adds exactly one row at the end |
| `Messages.JointColumns.Pushed` | plugins/advrf_dds_common/src/converter.cpp:354-360 | the same for the four joint state columns |
| `Messages.ValveColumns.Pushed` | plugins/advrf_dds_common/src/converter.cpp:458-473 | the same for the valve columns |
| `Messages.GripperColumns.Pushed` | plugins/advrf_dds_common/src/converter.cpp:491-499 | the same for the gripper columns |
| `Messages.AppendCia402` | plugins/advrf_dds_common/src/converter.cpp:361-385 | a CIA402 PDO extends each of the 19 value columns once, with the field of that name, and fault and round-trip time with zero |
| `Messages.AppendMotorXt` | plugins/advrf_dds_common/src/converter.cpp:394-417 | an XT motor PDO extends each value column once, with the field of that name, or with zero or the empty string where it has none |
| `Messages.AppendLegacyMotor` | plugins/advrf_dds_common/src/converter.cpp:426-449 | a legacy motor PDO likewise |
| `Messages.AppendKnee` | plugins/advrf_dds_common/src/converter.cpp:458-473 | a valve PDO extends each of the 13 valve columns once, with the field of that name |
| `Messages.AppendGripper` | plugins/advrf_dds_common/src/converter.cpp:491-499 | a gripper PDO extends each of the 6 gripper columns once, with the field of that name |
| `Messages.AppendJoint` | plugins/advrf_dds_common/src/converter.cpp:354-359 | a joint row extends position, velocity and effort once each |
| `DdsAssembler.Process` | plugins/advrf_cyclonedds_plugin/src/dds_pdo_publisher.cpp:22-140 | the DDS switch: an accepted PDO adds exactly its row under its resolved name; a PDO of another type leaves every column unchanged |
| `ZenohAssembler.Append` | plugins/advrf_zenoh_plugin/src/ros2cdr.cpp:339-421 | the Zenoh switches: an accepted PDO adds exactly its row under the identifier it carries; any other is refused |
| `MessageContents.ColumnsShowPayloads` | plugins/advrf_dds_common/src/converter.cpp:354-506 | for every kind of message and either backend: each column of row i holds the field of that name of the i-th accepted PDO's payload, or its default, and the name column the name due to that PDO |
| `MessageContents.AcceptedTypes` | plugins/advrf_cyclonedds_plugin/src/dds_pdo_publisher.cpp:22-140 | which PDO types each kind of message takes, for either backend |
| `Publishers.EntriesAreAcceptedPdos` | plugins/advrf_cyclonedds_plugin/src/dds_pdo_publisher.cpp:22-140 | row i of a message comes from the i-th accepted PDO of any mixed sequence; the header is the last accepted PDO's |
| `Publishers.ReportPush` | plugins/advrf_cyclonedds_plugin/include/advrf_cyclonedds_plugin/adapters/dds_pdo_publisher.hpp:57-62 | one more PDO adds its row at the end and becomes the header's, or changes nothing |
| `Publishers.SerializeAggregate` | plugins/advrf_zenoh_plugin/src/ros2cdr.cpp:302-319 | a payload exists if and only if there are PDOs and each has a stamped header and an accepted type; its rows are one per PDO, its header the last one's |
| `Publishers.Publisher.BeginCycle` | plugins/advrf_cyclonedds_plugin/include/advrf_cyclonedds_plugin/adapters/dds_pdo_publisher.hpp:51-54 | what was assembled before is forgotten, what was written stays |
| `Publishers.Publisher.ConsumePdo` | plugins/advrf_zenoh_plugin/include/advrf_zenoh_plugin/adapters/zenoh_adapter_bridge.hpp:58-61 | message, update flag and pending list stay in agreement with the calls so far, for both backends |
| `Publishers.Publisher.EndCycle` | plugins/advrf_zenoh_plugin/include/advrf_zenoh_plugin/adapters/zenoh_adapter_bridge.hpp:63-94 | the outputs written over the whole sequence of calls are exactly the reports it calls for |
| `Publishers.SameRow` | plugins/advrf_zenoh_plugin/src/ros2cdr.cpp:339-421 | the two switches compared on every PDO: what DDS takes, Zenoh takes as the same row, and the one thing more Zenoh takes is a valve in a joint state |
| `Publishers.DdsRows` | plugins/advrf_cyclonedds_plugin/src/dds_pdo_publisher.cpp:22-43 | on serializable PDOs the DDS publisher keeps all rows if and only if it is not a joint state with a valve |
| `Publishers.BackendsAgree` | plugins/advrf_zenoh_plugin/src/ros2cdr.cpp:302-421 | when the Zenoh form yields a message, the DDS form yields one with the same rows and the same header PDO if and only if it is not a joint state containing a valve |
| `Publishers.ValveSplitsBackends` | plugins/advrf_cyclonedds_plugin/src/dds_pdo_publisher.cpp:22-43 | inputs on which they part: a joint state of any one stamped valve is a message over Zenoh and nothing over DDS |
| `ReplService.ExecuteZmq` | core/advrf_middleware_core/src/adapter_service.cpp:18-73 | at most one hand-over to the transport, on the frame MASTER_CMD for master and firmware commands and ESC_CMD for all others; success exactly on the master's ACK for this command; a plain failure exactly if nothing was handed over or the master said NACK; the reply carries the request's header; the message of each kind of failure |
| `ReplService.AdapterServiceServer.Create` | core/advrf_middleware_core/src/adapter_service.cpp:9-16 | construction succeeds exactly for ZeroMQ with a URI and a timeout of 1 to 60000 ms |
| `ReplService.AdapterServiceServer.ProcessRequestResult` | core/advrf_middleware_core/include/advrf_middleware_core/adapters/adapter_service.hpp:42-48 | nothing is handed over unless started on ZeroMQ; otherwise the hand-over, frame and classification of the transaction |
| `ReplService.AdapterServiceServer.ProcessRequest` | core/advrf_middleware_core/include/advrf_middleware_core/adapters/adapter_service.hpp:50-57 | callers always get an ACK or a NACK for their own command with their own header, an ACK if and only if the master acknowledged it; the text says what went wrong |
| `ReplService.VerdictOfExchange` | core/advrf_middleware_core/src/adapter_service.cpp:18-73 | the verdicts of the step system are those of the transaction |
| `ReplService.InvariantRun` | core/advrf_middleware_core/src/adapter_service.cpp:18-73 | the protocol's invariant holds in every interleaving of callers, network and master |
| `ReplService.OwnReply` | core/advrf_middleware_core/src/adapter_service.cpp:26-33 | what arrives on a transaction's socket is the master's answer to that very transaction, because no two transactions ever have the same socket |
| `ReplService.VerdictsAreTrue` | core/advrf_middleware_core/src/adapter_service.cpp:26-67 | in every interleaving: success implies that the master answered this very request with an ACK for its command, a plain failure implies a NACK for it or that it never left, each request is handed over at most once, and only if complete, and answered at most once |
| `ReplService.RequestsAreRouted` | core/advrf_middleware_core/src/adapter_service.cpp:35-41 | in every interleaving a request on its way is complete and on the frame its command is routed by |
| `ReplService.NothingUnlessStarted` | core/advrf_middleware_core/include/advrf_middleware_core/adapters/adapter_service.hpp:42-48 | in every interleaving without a start of the service nothing is handed over |
| `ReplService.AckedRequestSucceeds` | core/advrf_middleware_core/src/adapter_service.cpp:18-73 | for every complete request there is a run in which it is handed over once, ACKed and reported as a success |
| `ReplService.LateRepliesFindNobody` | core/advrf_middleware_core/src/adapter_service.cpp:27-29 | in every interleaving, whatever a transaction can read was answered to it and to no other: a late reply is never credited to a later request |
| `ReplService.OneOpenTransaction` | core/advrf_middleware_core/include/advrf_middleware_core/adapters/adapter_service.hpp:44 | at most one transaction is open at any time, and the service stays started under it |
| `ReplService.VerdictsAreFinal` | core/advrf_middleware_core/src/adapter_service.cpp:27-29 | a verdict, once given, stays |
| `ReplService.SharedSocketMisattributes` | core/advrf_middleware_core/src/adapter_service.cpp:27-29 | the reason for a socket per transaction: in the same system with one shared socket, a run exists in which a late ACK is credited to the next command |
| `Supervisor.InvariantRun` | core/advrf_middleware_core/include/advrf_middleware_core/plugin/plugin_exec.hpp:57-196 | what every interleaving of start, workers, health failures and signals keeps |
| `Supervisor.SupervisorSafety` | core/advrf_middleware_core/include/advrf_middleware_core/plugin/plugin_exec.hpp:57-196 | for a start that waits and for one that does not: a turn is taken only after that adapter's start returned true; at most one turn after the flag fell; a failed k-th start leaves exactly the earlier ones started, otherwise all are; once stop has returned no worker is alive |
| `Supervisor.FallenForGood` | core/advrf_middleware_core/include/advrf_middleware_core/plugin/plugin_exec.hpp:161-196 | a flag that fell after start was called never rises again |
| `Supervisor.SignalHeeded` | core/advrf_middleware_core/include/advrf_middleware_core/plugin/plugin_exec.hpp:161-165 | a signal takes effect for good if and only if start has already been called; one that comes earlier is lost |
| `Supervisor.ShutdownIsBounded` | core/advrf_middleware_core/include/advrf_middleware_core/plugin/plugin_exec.hpp:79-94 | after the fall, the number of steps anyone takes in any schedule is bounded |
| `Supervisor.TurnsAfterFall` | core/advrf_middleware_core/include/advrf_middleware_core/plugin/plugin_exec.hpp:79-94 | whatever is scheduled after the fall, each worker takes at most the turn it is in |
| `Supervisor.ShutdownProgress` | core/advrf_middleware_core/include/advrf_middleware_core/plugin/plugin_exec.hpp:190-196 | and some step other than a signal is always possible until stop has returned |
| `Supervisor.FallEndsEverything` | core/advrf_middleware_core/include/advrf_middleware_core/plugin/plugin_exec.hpp:161-196 | a schedule that runs out of steps ends with stop returned and no worker alive, within 7n + 4 steps of the fall |
| `Supervisor.UnhealthyAdapterEndsAll` | core/advrf_middleware_core/include/advrf_middleware_core/plugin/plugin_exec.hpp:82-89 | a due health check that fails: that adapter takes no further turn in any continuation, the flag is down for good once its worker has acted, and every schedule that goes on as long as it can ends with stop returned and no worker alive |
| `Supervisor.FailedStartEndsAll` | core/advrf_middleware_core/include/advrf_middleware_core/plugin/plugin_exec.hpp:161-168 | a process that fails to start ends all in the same way |
| `Supervisor.StopEndsAll` | core/advrf_middleware_core/include/advrf_middleware_core/plugin/plugin_exec.hpp:186-196 | so does the owner's stop after a start that did not wait |
| `Supervisor.NothingElseEndsThem` | core/advrf_middleware_core/include/advrf_middleware_core/plugin/plugin_exec.hpp:57-180 | conversely, after start the flag stays up and no worker ends as long as nobody signals or stops, no start fails and every due health check is passed |
| `Supervisor.LaunchDecides` | core/advrf_middleware_core/include/advrf_middleware_core/plugin/plugin_exec.hpp:154-180 | start polls for the end only if told to wait, and returns at once only if told not to |
| `Supervisor.HealthyRound` | core/advrf_middleware_core/include/advrf_middleware_core/plugin/plugin_exec.hpp:79-92 | a round of the worker's loop while the flag is up takes exactly one turn, unless a health check is due and fails |
| `ZenohSubscriber.NewestIsSuffix` | plugins/advrf_zenoh_plugin/include/advrf_zenoh_plugin/subscriber/zenoh_subscriber.hpp:63-69 | the newest samples are the last min(depth, n), in order |
| `ZenohSubscriber.HoldsAfterSample` | plugins/advrf_zenoh_plugin/include/advrf_zenoh_plugin/subscriber/zenoh_subscriber.hpp:61-69 | dropping from the front until there is room and appending keeps exactly the newest samples, and accepted = taken + pending + dropped |
| `ZenohSubscriber.Subscriber.OnSample` | plugins/advrf_zenoh_plugin/include/advrf_zenoh_plugin/subscriber/zenoh_subscriber.hpp:50-70 | for any payload the queue never exceeds its depth and keeps that account |
| `ZenohSubscriber.Subscriber.Swap` | plugins/advrf_zenoh_plugin/include/advrf_zenoh_plugin/subscriber/zenoh_subscriber.hpp:76-81 | a poll takes exactly the last min(depth, k) of the k samples accepted since the poll before |
| `ZenohSubscriber.Subscriber.SpinOnce` | plugins/advrf_zenoh_plugin/include/advrf_zenoh_plugin/subscriber/zenoh_subscriber.hpp:74-101 | all of them reach the callback, in order |
| `ZenohSubscriber.SegmentsPartition` | plugins/advrf_zenoh_plugin/include/advrf_zenoh_plugin/subscriber/zenoh_subscriber.hpp:50-101 | the accepted samples are cut at the polls without loss or reordering |
| `ZenohSubscriber.NothingDroppedIff` | plugins/advrf_zenoh_plugin/include/advrf_zenoh_plugin/subscriber/zenoh_subscriber.hpp:63-67 | nothing was dropped if and only if no stretch between polls exceeded the depth; then polls and queue together are all accepted samples in order |
| `Commands.DeserializeVector` | plugins/advrf_zenoh_plugin/src/ros2cdr.cpp:60-78 | one PDO per command, in order, or nothing at all |
| `Commands.DeserializeCycle` | plugins/advrf_zenoh_plugin/src/ros2cdr.cpp:257-286 | the decoder of each kind of topic yields the batch its payload stands for |
| `Commands.DecodeKeepsCommands` | plugins/advrf_zenoh_plugin/src/ros2cdr.cpp:60-228 | a payload yields nothing exactly when it holds no command; otherwise as many PDOs as commands, each of the kind's type and addressed to the command's device |
| `Commands.DecodedCommands` | plugins/advrf_zenoh_plugin/src/ros2cdr.cpp:97-228 | the i-th PDO of a batch is the i-th command of the payload, field by field, for each kind of topic: its ID in the header, each value under the name the device knows it by |
| `Commands.TruncateRounds` | plugins/advrf_zenoh_plugin/src/ros2cdr.cpp:124-140 | gains stored as integers are rounded toward zero |
| `Commands.SameBatchSameCommands` | plugins/advrf_zenoh_plugin/src/ros2cdr.cpp:97-228 | two payloads become the same batch if and only if they hold the same commands, for motors up to the fields the PDO has no room for |
| `Commands.FromDds` | plugins/advrf_dds_common/src/converter.cpp:271-303 | for each motor type the PDO field by field, whatever the reused PDO held; a negative ID or an unknown type leaves it blank |
| `Commands.ConvertedCommand` | plugins/advrf_dds_common/src/converter.cpp:235-303 | a command is converted if and only if its device was discovered as a motor, to that motor's transmit type and payload, field by field; a CIA402 command without its torque reference and fifth gain |
| `Commands.ConvertBatch` | plugins/advrf_cyclonedds_plugin/src/dds_adapter_subscribers.cpp:21-35 | append, convert in place, pop if blank: in effect the convertible commands, in order |
| `Commands.ConvertedAreAddressed` | plugins/advrf_dds_common/src/converter.cpp:271-303 | the outputs are the convertible commands in order, each for the discovered motor it names, with that motor's transmit type, the payload to match and the index that push demands |
| `Commands.SameBatchIff` | plugins/advrf_dds_common/src/converter.cpp:259-269 | a motor batch means the same on both backends if and only if every command targets a motor of the topic's kind and, for CIA402, has neither torque reference nor fifth gain: the DDS conversion drops these two |
| `Commands.TorqueIsDropped` | plugins/advrf_dds_common/src/converter.cpp:259-269 | inputs on which they part: any command to a discovered CIA402 motor that asks for torque |
| `CommandQueues.AdapterSubscribers.Push` | core/advrf_middleware_core/include/advrf_middleware_core/adapters/adapter_subscribers.hpp:47-63 | queued exactly if the header has an index that is not negative and the transport takes it; then on the given channel, for the device of that index |
| `CommandQueues.ZenohAdapterSubscribers.constructor` | plugins/advrf_zenoh_plugin/src/zenoh_adapter_subscribers.cpp:10-40 | the five topics, each with its command type, channel and decoder |
| `CommandQueues.SendsAreAddressed` | core/advrf_middleware_core/include/advrf_middleware_core/adapters/adapter_subscribers.hpp:47-63 | a batch is queued in order on one channel, each PDO for the device its header names |
| `CommandQueues.TypeCheckNeverFires` | plugins/advrf_zenoh_plugin/src/zenoh_adapter_subscribers.cpp:125-143 | on its own topic a CDR payload never fails the type check: the queued prefix depends only on IDs and transport |
| `CommandQueues.ZenohAdapterSubscribers.Start` | plugins/advrf_zenoh_plugin/src/zenoh_adapter_subscribers.cpp:42-68 | all topics get a subscriber or none does; without a transport nothing is touched |
| `CommandQueues.ZenohAdapterSubscribers.Enqueue` | plugins/advrf_zenoh_plugin/src/zenoh_adapter_subscribers.cpp:125-143 | a PDO of another type never reaches the transport |
| `CommandQueues.ZenohAdapterSubscribers.EnqueueBatch` | plugins/advrf_zenoh_plugin/src/zenoh_adapter_subscribers.cpp:102-107 | for every behaviour of the transport, exactly the longest acceptable prefix is queued |
| `CommandQueues.ZenohAdapterSubscribers.SpinTopic` | plugins/advrf_zenoh_plugin/include/advrf_zenoh_plugin/subscriber/zenoh_subscriber.hpp:74-101 | every batch a poll takes is delivered, in order, and accounted for in the queues |
| `CommandQueues.ZenohAdapterSubscribers.SpinOnce` | plugins/advrf_zenoh_plugin/src/zenoh_adapter_subscribers.cpp:145-149 | every topic is polled once, and over every run the queues hold exactly what the deliveries queued |
| `CommandQueues.ZenohAdapterSubscribers.Arrive` | plugins/advrf_zenoh_plugin/src/zenoh_adapter_subscribers.cpp:70-100 | a sample counts as the batch its topic's decoder makes of it: one PDO in Protobuf, the decoded commands in CDR |
| `CommandQueues.QueuesStaySound` | plugins/advrf_zenoh_plugin/src/zenoh_adapter_subscribers.cpp:10-40 | over every run the motor queue holds CIA402 and motor commands only, the valve, gripper and pump queues valve, gripper and pump commands only, and each entry is for the device its header names |
| `CommandQueues.FromSamplesToQueues` | plugins/advrf_zenoh_plugin/src/zenoh_adapter_subscribers.cpp:102-112 | over every run the queues hold the accepted prefixes of the delivered batches and nothing else, and a topic's batches are, poll by poll, the newest of those that arrived since the poll before |
| `CommandQueues.DdsAdapterSubscribers.OnMessage` | plugins/advrf_cyclonedds_plugin/include/advrf_cyclonedds_plugin/adapters/dds_adapter_subscribers.hpp:102-110 | every converted command is pushed, whatever became of the others |
| `CommandQueues.StopVersusSkip` | plugins/advrf_zenoh_plugin/src/zenoh_adapter_subscribers.cpp:104-106 | facing the same transport, stopping at a refusal queues a prefix of what skipping it queues; the same if and only if nothing later could have gone in |
| `Discovery.FirstSightingMeaning` | core/advrf_middleware_core/include/advrf_middleware_core/utils/ecat_discover.hpp:113-124 | the reference form of an entry is the first sighting of its ID |
| `Discovery.PeekAll` | core/advrf_middleware_core/include/advrf_middleware_core/utils/ecat_discover.hpp:103-131 | one queue: only requested IDs are entered, entries already there are left alone |
| `Discovery.DiscoverOnce` | core/advrf_middleware_core/include/advrf_middleware_core/utils/ecat_discover.hpp:90-133 | one poll over all channels, in order |
| `Discovery.EntriesAreFirstShown` | core/advrf_middleware_core/include/advrf_middleware_core/utils/ecat_discover.hpp:90-131 | an entry stands for each requested ID that some header named in one of the polls, with the type, name and channel of the very first PDO that did: first poll, first channel, first position |
| `Discovery.AllSeenMeansShown` | core/advrf_middleware_core/include/advrf_middleware_core/utils/ecat_discover.hpp:90-131 | all IDs have been seen if and only if some header named each of them in one of the polls |
| `Discovery.Discover` | core/advrf_middleware_core/include/advrf_middleware_core/utils/ecat_discover.hpp:63-78 | after any number of polls of any stream the map tells what was sighted of the requested IDs; the loop ends exactly when they are all there, at the first such poll; at once, with nothing, without a transport |
| `Discovery.EntriesNeverChange` | core/advrf_middleware_core/include/advrf_middleware_core/utils/ecat_discover.hpp:114-117 | between any two polls no entry changes, keys stay within the requested set, and the missing never grow |
| `Discovery.DiscoveryEndsIff` | core/advrf_middleware_core/include/advrf_middleware_core/utils/ecat_discover.hpp:71-75 | discovery ends if and only if every requested ID appears sooner or later |
| `Wiring.DdsFilter` | plugins/advrf_cyclonedds_plugin/src/dds_adapter_publishers.cpp:49-61 | for any iteration order, the IDs on the channel, each once |
| `Wiring.ZenohFilter` | plugins/advrf_zenoh_plugin/src/zenoh_adapter_publishers.cpp:39-49 | the same for the other backend's loop |
| `Wiring.ListsPartition` | plugins/advrf_cyclonedds_plugin/src/dds_adapter_publishers.cpp:49-65 | the per-channel lists are disjoint and cover the map |
| `Wiring.JointList` | plugins/advrf_cyclonedds_plugin/src/dds_adapter_publishers.cpp:67-90 | motor, gripper and valve lists appended in any order list the joints, without duplicates |
| `Wiring.DdsInit` | plugins/advrf_cyclonedds_plugin/src/dds_adapter_publishers.cpp:38-234 | succeeds exactly if each single-device channel has at most one device and it is named; then exactly the due topics are registered, otherwise exactly those before the first such channel |
| `Wiring.ZenohInit` | plugins/advrf_zenoh_plugin/src/zenoh_adapter_publishers.cpp:19-122 | whatever is due is registered, once and for the right devices; success exactly if every single device is named |
| `Wiring.SinglesAreRegistered` | plugins/advrf_cyclonedds_plugin/src/dds_adapter_publishers.cpp:138-234 | each discovered IMU, power board, pump and force/torque sensor with a name is registered for its channel, its ID alone and its name, and nothing else is |
| `Wiring.MaskIsListedIds` | core/advrf_middleware_core/include/advrf_middleware_core/adapters/adapter_publishers.hpp:148-162 | no registration of either backend accepts all IDs or meets a duplicate, and its mask is exactly its devices' IDs below 256 |
| `Startup.RegisterPlan` | core/advrf_middleware_core/include/advrf_middleware_core/adapters/adapter_publishers.hpp:133-168 | the aggregate registrations of a plan, in order, become the adapter's subscriptions, each with its channels, mask and kind of message |
| `Startup.SubscribedToItsDevices` | plugins/advrf_cyclonedds_plugin/src/dds_adapter_publishers.cpp:67-136 | each deployed subscription listens to the channels its kind of message is about, in order, and its mask is the discovered devices on them with IDs below 256 |
| `Startup.EveryKindIsServed` | plugins/advrf_cyclonedds_plugin/src/dds_adapter_publishers.cpp:67-136 | a publisher of joint, motor, gripper or valve states exists if and only if a device was discovered that such a state is about |
| `Startup.BringUp` | plugins/advrf_cyclonedds_plugin/src/dds_adapter_publishers.cpp:38-136 | discovery, wiring and registration composed, for either backend and any iteration order: the adapter carries the aggregate publishers of a plan that wires what was discovered |
| `Startup.Operate` | core/advrf_middleware_core/include/advrf_middleware_core/adapters/adapter_publishers.hpp:99-105 | and keeps carrying them over any number of turns |
| `Startup.WrittenMeansReceived` | core/advrf_middleware_core/include/advrf_middleware_core/adapters/adapter_publishers.hpp:246-262 | from discovery to the wire: each output a publisher has written comes from one cycle in which every discovered device of its topic with an ID below 256 was received; a message has one row per accepted PDO of that cycle, each from another device, with that PDO's name and values in its columns |
| `Wiring.BackendsWireAlike` | plugins/advrf_zenoh_plugin/src/zenoh_adapter_publishers.cpp:51-77 | two backends, any two iteration orders: the same topics, each with the same channels and the same mask |
| `Text.ExpandToken` | core/advrf_middleware_core/include/advrf_middleware_core/config/config_file.hpp:107-111 | the find-and-replace loop ends for every folder, token and directory, and is one left-to-right substitution |
| `Text.ExpandFolder` | core/advrf_middleware_core/include/advrf_middleware_core/config/config_file.hpp:105-112 | the two passes in sequence, first for ${PWD}, then for $PWD |
| `Text.PassesAgreeIff` | core/advrf_middleware_core/include/advrf_middleware_core/config/config_file.hpp:105-112 | for an absolute directory, the passes equal one simultaneous substitution on every text if and only if nowhere in the directory the bare token starts or could start |
| `Text.NothingLeftIff` | core/advrf_middleware_core/include/advrf_middleware_core/config/config_file.hpp:105-112 | no token is left in any text if and only if the directory is clear of both tokens in that sense |
| `Text.NoDollarIsClear` | core/advrf_middleware_core/include/advrf_middleware_core/config/config_file.hpp:105-112 | a directory without a dollar sign is |
| `Text.TokenInDirectory` | core/advrf_middleware_core/include/advrf_middleware_core/config/config_file.hpp:105-112 | an input on which both fail: a directory named $PWD |
| `Decimal.UnsignedValueRoundTrip` | core/advrf_middleware_core/include/advrf_middleware_core/config/config_file.hpp:48-60 | inverts the decimal printer on every 32-bit value and rejects every larger one as out of range |
| `Decimal.UnsignedValueAccepts` | core/advrf_middleware_core/include/advrf_middleware_core/config/config_file.hpp:48-60 | accepts exactly the nonempty digit strings of value at most 2^32 - 1, with that value, and tells what is no number from what is out of range; the printer's text is the shortest accepted for its value |
| `Decimal.NumberOfPush` | core/advrf_middleware_core/include/advrf_middleware_core/config/config_file.hpp:55-58 | digits count in powers of ten, the last one lowest |
| `Decimal.EcatIdRoundTrip` | core/advrf_middleware_core/include/advrf_middleware_core/utils/pdo_utils.hpp:183-199 | prefix, underscore, ID parses back to the ID, for any prefix, if and only if the ID fits an int; otherwise to -1 |
| `Decimal.NoIdInName` | core/advrf_middleware_core/include/advrf_middleware_core/utils/pdo_utils.hpp:183-189 | a name without an underscore, or with nothing behind its last one, has no ID |
| `Decimal.StoIOfSign` | core/advrf_middleware_core/include/advrf_middleware_core/utils/pdo_utils.hpp:191-192 | and a sign counts |
| `Decimal.IntOfDigits` | core/advrf_middleware_core/include/advrf_middleware_core/utils/pdo_utils.hpp:191-198 | the value is accepted exactly within the range of a 32-bit integer |
| `Decimal.StoIOfBlank` | core/advrf_middleware_core/include/advrf_middleware_core/utils/pdo_utils.hpp:191-192 | blanks before it are skipped |
| `Decimal.StoIOfPrefix` | core/advrf_middleware_core/include/advrf_middleware_core/utils/pdo_utils.hpp:191-192 | what follows the digits of an ID is ignored |
| `Decimal.GeneratedNameRoundTrip` | core/advrf_middleware_core/include/advrf_middleware_core/utils/name_resolver.hpp:7-15 | a configured name is used as it is; a generated one leads back to its ID if and only if the ID fits an int |
| `Decimal.GeneratedNamesDiffer` | core/advrf_middleware_core/include/advrf_middleware_core/utils/name_resolver.hpp:7-15 | different unnamed devices get different names |
| `Clock.ClockOffset.Init` | core/advrf_middleware_core/include/advrf_middleware_core/utils/clock_utils.hpp:25-36 | both samples and their offset, modulo 2^64 |
| `Clock.ConversionShifts` | core/advrf_middleware_core/include/advrf_middleware_core/utils/clock_utils.hpp:24-46 | however the clocks stood, even with real time behind, d after the sampled monotonic time converts to d after the sampled real time modulo 2^64 |
| `Clock.PublishedStamps` | core/advrf_middleware_core/include/advrf_middleware_core/utils/pdo_utils.hpp:164-175 | a stamped PDO is published with the real time its stamp denotes, whenever its seconds fit |
| `Clock.UnstampedIsNow` | core/advrf_middleware_core/include/advrf_middleware_core/utils/pdo_utils.hpp:166-174 | a missing or zero stamp counts as the time of reception |
| `Clock.SplitIsExact` | plugins/advrf_dds_common/src/converter.cpp:307-311 | nanoseconds below 10^9; the split denotes the time exactly if and only if the seconds fit 32 bits, and always modulo 2^32 seconds |
| `Clock.SplitKeepsOrder` | plugins/advrf_dds_common/src/converter.cpp:307-311 | stamps are ordered and equal like the times as long as the seconds fit |
| `Clock.PeriodFromRate` | core/advrf_middleware_core/include/advrf_middleware_core/config/runtime_config.hpp:16-20 | an error outside 1 to 10^6 Hz, otherwise the longest period of 1 to 10^6 microseconds that is not too slow |
| `Clock.ReportedRateIff` | core/advrf_middleware_core/include/advrf_middleware_core/plugin/plugin_exec.hpp:73-75 | the reported rate never understates the requested one; equal if and only if 10^6 leaves a remainder by it that is less than the quotient, so for every rate up to 1000 Hz |
| `Clock.ReportedRateExceeds` | core/advrf_middleware_core/include/advrf_middleware_core/plugin/plugin_exec.hpp:73-75 | an input on which it overstates: 1500 Hz is reported as 1501 |

## Left out

- Discovery.Discover: the loop is watched for an arbitrary number of polls, since it need not end.
- CommandQueues.ZenohAdapterSubscribers.Arrive: an exception from a callback, which loses only its own message, is not modelled; the callbacks that exist do not throw.
- Publishers.Publisher.EndCycle: writers and serializers do not fail, a Zenoh publisher is initialised; the source logs such failures and goes on.
- Publishers.Publisher.ConsumePdo: the message header is kept as the PDO it is taken from; frame ID and stamp follow from it (`Clock` has the stamp).
- Commands.FromDds: conversions of gains that do not fit a 32-bit integer are undefined in the source and unbounded here.
- Supervisor.SupervisorSafety: `start` is called once.
- ReplService.ExecuteZmq: the fields of a reply other than type, command, message and header; the default reply is taken to be neither ACK nor NACK, the Protobuf file is not part of this model.
- ZenohSubscriber.Subscriber.OnSample: the drop counter does not wrap at 2^64.
- The FastDDS plugin, a near copy of the Cyclone DDS one.
- Startup.RegisterPlan: publishers of single devices (IMU, pump, power board, force/torque) are planned but not given to the adapter: they are plain field copies.
- The power board and force/torque command kinds, which no topic uses, and builds without ROS 2 support.
- Failures while creating DDS or Zenoh endpoints, except all-or-nothing subscription.
- CDR and Protobuf bytes, ZeroMQ, shared memory: libraries, modelled as oracles or atomic steps.
- YAML nodes, the file system, the environment, quality-of-service settings, topic names, the ROS graph.
- Floating-point rounding, real time and scheduling delay.
