# System Audio Route: a verified model of the realtime and control core

This project models the portable core of System Audio Route in Dafny and proves what the code relies on. It has
five parts.

- **Handover protocols.** `GraphPublisher` (publication of graphs with a reader count), `ErrorChannel` (a sequence
  lock over packed records), `RingProtocol` (the transport ring), `SlotProtocol` (claim and release of bus slots) and
  `BlockQueueProtocol` (the index queue inside a slot) are state machines with one atomic load or store per step.
  `RenderStreamProtocol` and `CaptureStreamProtocol` put the pending FIFO around the queue, and `BusProtocol` runs
  the streams of all slots inside the slot protocol. Their theorems hold in every reachable state of every run, for
  any number of threads where the source allows any.
- **Re-blocking streams.** `AudioFifo`, `RenderBus`, `CaptureBus`, `TransportRing` and `RingAudioSource` are classes
  with the fields, loops and circular buffers of the source. Each carries a ghost stream of the frames accepted so
  far; `Valid()` says that what was delivered, what is pending and what is queued make up that stream.
- **Control plane to sound.** `Preset`, `AudioRuntime`, `ControlCommand`, `PresetGraph`, `RouteMatrix`, `Graph` and
  `ControlSession` take a list of routes to a dense matrix and to its execution, in exact arithmetic. The centre is
  `PresetGraph.SoundOfGraph`: the graph means what the list of routes says. `CommandSound` says what the commands do
  to the sound, `GraphUpdate` and `PresetUpdate` what a real-time update does to it.
- **Codecs.** `Codecs` builds codecs from parts and proves that their laws carry over; `WireStream`, `WirePreset`,
  `WireCommand`, `WireResponse` and `WireMessage` are the control wire protocol, `PresetFile` and the modules
  `SessionCodec`, `SessionFile` and `SessionStream` the files nested around it. `Refusals` carries a value that cannot
  be read back through the parts of a codec; `WireRefusals` and `SessionFile` use it to make the round trips exact.
- **Arithmetic.** `CallbackClock` and `SharedMemoryLayout` keep the 64-bit operations of the source and prove that
  the clock does not drift and that a layout fits.

A method is proved against a function of its inputs or of the old state, and the theorems are about that function.
Floats are bit patterns; where they are samples or gains, `Basics.RealOf` gives the number they stand for.

Some properties turned out not to hold of the code as it is. For each the model keeps the code, gives a
counterexample, and proves exactly when the property holds:

- The duplicate check of routes joins two ids by a newline and can take two crosspoints for one
  (`Preset.DifferentCrosspointsRefused`, `Preset.DuplicateCheckIsExact`).
- `Graph::apply_realtime_parameters_from` may change a graph and still return false
  (`GraphUpdate.RefusedButChanged`, `Graph.RefusedIsUnchangedIff`). Graphs built from presets do not
  (`PresetUpdate.RefusedPresetIsUnchanged`).
- It may return true and leave the graph sounding unlike its source, because only matrices take over parameters
  (`GraphUpdate.GainIsNotTakenOver`, `GraphUpdate.OneNodeSoundsAlikeIff`; a longer graph may hide the difference,
  `GraphUpdate.HiddenDifference`). Graphs built from presets do not (`PresetUpdate.UpdatePresetGraph`).
- A late deadline that is due right now is skipped (`CallbackClock.DueNowIsSkipped`,
  `CallbackClock.FirstNotPastIff`).
- The timer delay is rounded with a product that can wrap (`CallbackClock.ASecondIsLost`,
  `CallbackClock.DelayIsExactIff`, `CallbackClock.EveryDelayIsExactIff`).
- A command or a response with a float that is infinite or no number is written and cannot be read
  (`EncodedSizes.AWrittenCommandIsLost`, `WireRefusals.CommandsDecodeIff`, `WireRefusals.ResponsesDecodeIff`).
- A response with runtime endpoints but without the runtime flag is written and cannot be read
  (`EncodedSizes.AWrittenResponseIsLost`, `WireRefusals.MismatchedResponsesAreRefused`).
- A session whose device group id is longer than 64 KiB is written and cannot be read
  (`SessionLoss.AWrittenSessionIsLost`, `SessionFile.SessionFilesRoundTrip`).

`dafny verify dfyconfig.toml` checks the whole project.

## Model

| member | source | states |
|---|---|---|
| GraphPublisher.NoGraphFreedInUse | core/graph/graph_snapshot.cpp:13-55 | in every interleaving a graph that some `process` call has loaded and not finished with is still owned by the publisher and not freed; the reader count is exactly the number of threads inside |
| GraphPublisher.GracePeriod | core/graph/graph_snapshot.cpp:13-23 | once `publish` has seen the reader count at zero, and until the next publication, every thread inside uses the graph that `current` would return, so the replaced graph is in nobody's hands when it is reset |
| GraphPublisher.ClientsKeepGraphs | core/graph/graph_snapshot.cpp:25-30 | a graph handed out by `current` stays alive while the caller keeps it |
| GraphPublisher.ControlExclusion | core/graph/graph_snapshot.cpp:32-40 | the control spin lock excludes: at most one thread is between lock and unlock, the owner |
| GraphPublisher.StepHolds | core/graph/graph_snapshot.cpp:13-55 | every atomic step keeps the invariant that ties the count to the threads inside and each held pointer to `graph_` or to `previous` |
| RealtimeErrors.PackIsBijective | core/platform/wasapi_realtime_error.cpp:82-94 | packing a record and unpacking a word are inverse to each other, on all records and all 64-bit words |
| RealtimeErrors.ErrorBatch.Push | core/platform/wasapi_realtime_error.cpp:196-214 | the whole new batch after a push; stored exactly when there was room and no overflow yet |
| RealtimeErrors.BatchAfterPushes | core/platform/wasapi_realtime_error.cpp:196-214 | after n pushes: up to eight errors verbatim; beyond that the first seven and a marker that counts the other n - 7, saturating |
| ErrorChannel.RebuildsClamped | core/platform/wasapi_realtime_error.cpp:232-268 | what a reader rebuilds from the words of a batch is that batch with its count clamped to eight |
| ErrorChannel.SnapshotsAreGenuine | core/platform/wasapi_realtime_error.cpp:232-268 | with one writer and any number of readers every snapshot is exactly one published batch or the initial empty one, never a mixture, and it was the newest complete one at some moment of the call |
| ErrorChannel.SnapshotsNeverGoBack | core/platform/wasapi_realtime_error.cpp:247-268 | successive snapshots of one reader never go back to an older publication |
| RingProtocol.PopsReturnPushes | core/platform/virtual_wasapi_transport_ring.h:68-135 | in every interleaving of one producer and one consumer, pops return the pushed packets in order, without loss or repetition, zeros for the silent ones; consumer <= producer <= consumer + slot count |
| RingProtocol.NeverWritesTheSlotBeingRead | core/platform/virtual_wasapi_transport_ring.h:86-96 | the producer never writes the slot, header or audio, that the consumer is reading |
| RingProtocol.FullSpanNeverInvalid | core/platform/virtual_wasapi_transport_ring.h:105-122 | a pop never meets a malformed slot or impossible cursors, and with room for a full slot never reports an invalid packet |
| RingProtocol.CountersConserveFrames | core/platform/virtual_wasapi_transport_ring.h:131-172 | consumed frames never exceed produced frames; with both threads idle their difference is what `queued_frames` reports |
| TransportRing.Ring.Push | core/platform/virtual_wasapi_transport_ring.h:68-98 | status, new ring and stream of accepted frames after a push, refused for a bad packet or a full ring; a ring that only push and pop have touched stays well formed |
| TransportRing.Ring.Pop | core/platform/virtual_wasapi_transport_ring.h:100-135 | status, new cursor and delivered frames after a pop; what is delivered is the slot at the cursor, zeros if it is silent, even in a ring that is not well formed; an invalid slot is skipped, a span that is too small is not; nothing else changes |
| TransportRing.Ring.QueuedFrames | core/platform/virtual_wasapi_transport_ring.h:160-172 | in a well-formed ring the number of frames waiting between the cursors |
| TransportRing.StoredReadsBack | core/platform/virtual_wasapi_transport_ring.h:86-94 | a stored packet reads back as the frames it was given, zeros if silent |
| TransportRing.PushQueues | core/platform/virtual_wasapi_transport_ring.h:82-97 | a push appends its frames to the queue and disturbs none of those waiting |
| TransportRing.PopTakes | core/platform/virtual_wasapi_transport_ring.h:118-133 | a pop takes the frames at the head of the queue and leaves the rest |
| SlotProtocol.ResetsAreExclusive | core/platform/virtual_asio_capture_bus.cpp:107-121 | while attach or detach overwrites a slot, the graph side is not between its second check and its flag clear on it, and no other agent uses it through a handle (both buses) |
| SlotProtocol.BusySlotIsNotReset | core/platform/virtual_asio_capture_bus.cpp:140-158 | a slot the graph side works on cannot be reset before the flag is lowered |
| SlotProtocol.HandlesStayValid | core/platform/virtual_asio_render_bus.cpp:278-284 | from attach to its own detach a handle's slot is Active under its generation, so its checks succeed |
| SlotProtocol.NoSlotIsStranded | core/platform/virtual_asio_capture_bus.cpp:233-253 | a slot in Claiming always has an agent that holds the mutex and will move it on |
| SlotProtocol.GenerationsAreDistinct | core/platform/virtual_asio_capture_bus.cpp:119-122 | no two Active slots carry the same generation |
| SlotProtocol.CounterIsExact | core/platform/virtual_asio_capture_bus.cpp:122-123 | whenever the attachment mutex is free the active count equals the number of Active slots |
| SlotProtocol.StepHolds | core/platform/virtual_asio_render_bus.cpp:107-131 | every atomic step of attach, push or read, detach and the graph side keeps the invariant behind the rows above |
| BlockQueueProtocol.PopsReturnPushes | core/platform/virtual_asio_render_bus.cpp:311-328 | in every interleaving of one producer and one consumer at load and store granularity the consumer gets the queued blocks in order; what is missing lies between the indices |
| BlockQueueProtocol.NeverCopiesIntoTheCellBeingRead | core/platform/virtual_asio_capture_bus.cpp:144-152 | the block copied in never goes into the cell that may be copied out |
| AudioFifo.PlanarFifo.Push | core/realtime/planar_audio_fifo.cpp:46-68 | appends as many frames as fit, in order, across the end of the ring |
| AudioFifo.PlanarFifo.Peek | core/realtime/planar_audio_fifo.cpp:70-91 | copies the oldest frames and removes none |
| AudioFifo.PlanarFifo.Pop | core/realtime/planar_audio_fifo.cpp:100-105 | copies the oldest frames and removes exactly those |
| RenderBus.RenderSlot.PushFrames | core/platform/virtual_asio_render_bus.cpp:272-309 | an accepted push of any size extends the stream "taken, then queued, then pending" by its frames, a refused one adds nothing; accepted exactly when there is room after draining; the drop path is unreachable |
| RenderBus.RenderSlot.DrainPending | core/platform/virtual_asio_render_bus.cpp:330-343 | moves whole blocks until one side runs out of room, changes no frame of the stream, and never drops |
| RenderBus.RenderSlot.TakeBlock | core/platform/virtual_asio_render_bus.cpp:160-185 | takes the oldest queued block and keeps the stream |
| RenderBus.Bus.Push | core/platform/virtual_asio_render_bus.cpp:272-309 | through a handle: accepted exactly for a live handle, a matching shape and room; other slots do not change |
| RenderBus.Bus.Read | core/platform/virtual_asio_render_bus.cpp:133-201 | the destination becomes the sum of the oldest blocks of the active slots that have one, each of which is taken |
| RenderBus.Bus.Attach | core/platform/virtual_asio_render_bus.cpp:107-131 | claims the first idle slot, empties it and gives it a fresh generation, or reports that every slot is taken |
| RenderBus.Bus.Detach | core/platform/virtual_asio_render_bus.cpp:345-365 | empties the slot of that generation and no other |
| CaptureBus.CaptureSlot.WriteBlock | core/platform/virtual_asio_capture_bus.cpp:137-160 | the block is queued, or dropped exactly when the queue is full |
| CaptureBus.CaptureSlot.ReadFrames | core/platform/virtual_asio_capture_bus.cpp:179-206 | succeeds exactly when enough frames are available, delivers the oldest ones, and otherwise takes none; the overflow branch is unreachable |
| CaptureBus.Bus.Write | core/platform/virtual_asio_capture_bus.cpp:129-164 | every active slot is offered the block and keeps or drops it by itself |
| CaptureBus.Bus.Read | core/platform/virtual_asio_capture_bus.cpp:166-214 | through a handle: all the frames asked for, exactly when `available_frames` is large enough, or silence and an unchanged stream |
| CaptureBus.Bus.Attach | core/platform/virtual_asio_capture_bus.cpp:103-127 | claims the first idle slot, empties it and gives it a fresh generation, or reports that every slot is taken |
| CaptureBus.Bus.Detach | core/platform/virtual_asio_capture_bus.cpp:233-253 | empties the slot of that generation and no other |
| BusProtocol.StreamsAreKept | core/platform/virtual_asio_render_bus.cpp:272-343 | in every run of a bus, whoever attaches, pushes or reads and detaches meanwhile: taken, queued, in flight and pending frames, in this order, are exactly the accepted ones since the slot was cleared; the drop and overflow paths are never taken; a push that begins with room is never refused and a read that begins with enough frames never fails |
| BusProtocol.ClearingFindsRest | core/platform/virtual_asio_capture_bus.cpp:112-118 | the indices and the pending FIFO of a slot are cleared only while no push, read or write is in the middle of it |
| BusProtocol.StepHolds | core/platform/virtual_asio_capture_bus.cpp:103-253 | every step of the protocol, of a handle and of the graph side keeps the invariant behind the two rows above |
| RenderStreamProtocol.HandleHolds | core/platform/virtual_asio_render_bus.cpp:289-343 | every load, copy and store of push() keeps the stream law of its slot, and the room the push began with |
| CaptureStreamProtocol.HandleHolds | core/platform/virtual_asio_capture_bus.cpp:191-213 | every load, copy and store of read() keeps the stream law of its slot, and the frames the read began with |
| RingAudioSource.Source.Read | core/platform/virtual_wasapi_ring_audio_source.h:38-90 | delivers the popped frames in order, non-finite samples as zero, then silence; on a ring used by one producer it delivers exactly min(destination, available) frames |
| RingAudioSource.Source.AvailableFrames | core/platform/virtual_wasapi_ring_audio_source.h:92-95 | pending frames of the packet in hand plus the frames queued in the ring |
| RingAudioSource.Source.NextPacket | core/platform/virtual_wasapi_ring_audio_source.h:47-60 | yields no packet only on an empty or invalid ring, and never an empty packet, so the loop in `read` ends |
| RouteMatrix.RouteMatrix.SetGain | core/graph/route_matrix.cpp:116-127 | changes exactly the addressed cell of the row-major array; refused, without a change, outside the matrix or for a non-finite gain |
| RouteMatrix.RouteMatrix.CopyGainsFrom | core/graph/route_matrix.cpp:140-161 | takes over all gains of a matrix with the same endpoints, and nothing of any other |
| RouteMatrix.RouteMatrix.Process | core/graph/route_matrix.cpp:163-191 | each output sample is the sum over the inputs of gain times sample; channels and frames the matrix or the input lacks stay silent |
| Graph.Graph.Process | core/graph/graph.cpp:210-238 | with two alternating scratch buffers, for any node list: the left-to-right composition of the nodes |
| Graph.Graph.ApplyRealtimeParametersFrom | core/graph/graph.cpp:289-307 | which nodes take over gains: those before the first that does not agree, and none if the ids differ; true exactly when all agree and the ids are equal; when it is false, unchanged exactly if the ids differ or the gains were equal |
| GraphUpdate.TakenOverSoundsAlike | core/graph/graph.cpp:289-307 | if all nodes agree and those that are no matrices do what their counterparts do, then with scratch buffers of one shape the updated graph processes every block as its source does |
| GraphUpdate.TakenOverNodeIff | core/graph/graph.cpp:291-305 | after an update a node sounds like its counterpart exactly if it is a matrix or did so before: gain, mute, polarity and bus parameters are not copied |
| GraphUpdate.OneNodeSoundsAlikeIff | core/graph/graph.cpp:289-307 | for graphs of one node that condition decides whether the updated graph sounds like its source |
| GraphUpdate.SoundAlikeIff | core/graph/graph.cpp:30-182 | nodes that are no matrices do the same to every block exactly if they have one factor or one bus width |
| GraphUpdate.GainIsNotTakenOver | core/graph/graph.cpp:289-307 | two graphs of one gain node: the update succeeds and the target sounds as before, unlike its source |
| Graph.RefusedIsUnchangedIff | core/graph/graph.cpp:289-307 | a refused update leaves the graph unchanged exactly if the node ids differ or every matrix before the first disagreement has its counterpart's gains already |
| GraphUpdate.RefusedButChanged | core/graph/graph.cpp:299-305 | two concrete graphs of two matrices: the update is refused and the first matrix has changed |
| GraphUpdate.RefuseAnUpdate | core/graph/graph.cpp:289-307 | the same through the method, on graphs built for the purpose |
| Graph.ProcessBus | core/graph/graph.cpp:127-150 | each channel of a bus node is the sum of the input channels that fold onto it |
| Preset.Validate | core/control/preset_document.cpp:114-226 | the error list, and that it is empty exactly for the documents described without the validator |
| Preset.ValidIff | core/control/preset_document.cpp:114-226 | the validator accepts exactly the well-formed documents: known, distinct, non-empty ids, bounded sizes, finite gains, distinct route keys |
| Preset.SameKeyIff | core/control/preset_document.cpp:209-219 | two routes have the same newline-joined key exactly when they join the same endpoints or one is shifted against the other over a newline |
| Preset.DuplicateCheckIsExact | core/control/preset_document.cpp:209-219 | the duplicate check is exact if and only if no two routes are shifted; in particular when no input id contains a newline |
| Preset.DifferentCrosspointsRefused | core/control/preset_document.cpp:209-219 | a document with two different crosspoints that is refused as a duplicate |
| Preset.CrosspointsBoundRoutes | core/control/preset_document.cpp:135-220 | distinct crosspoints over known endpoints are at most outputs times inputs (pigeonhole) |
| Preset.RouteLimitNeverSole | core/control/preset_document.cpp:135-220 | a document over the route limit always has another error |
| PresetGraph.BuildRouteMatrix | core/control/preset_document.cpp:257-284 | the matrix holds the gain of each unmuted route in its cell and zero elsewhere; refused exactly for invalid presets |
| PresetGraph.BuildPresetGraph | core/control/preset_document.cpp:314-349 | which presets and versions build, and the graph they build |
| PresetGraph.BuildableIff | core/control/preset_document.cpp:314-349 | a graph is built exactly for valid presets with one route matrix node and a version other than zero |
| PresetGraph.SoundOfRoutes | core/control/preset_document.cpp:257-284 | processing the built matrix gives, at each output, the sum over the unmuted routes into it of gain times input |
| PresetGraph.SoundOfGraph | core/control/preset_document.cpp:314-349 | so does the whole graph, on blocks of any shape |
| PresetGraph.MutedSoundsLikeNone | core/control/preset_document.cpp:270-280 | a muted route contributes what a missing route does |
| PresetUpdate.UpdatePresetGraph | core/graph/graph.cpp:289-307 | between graphs built from presets: true exactly if node id and endpoint ids are the same; then the target processes every block as its source does, otherwise it is unchanged |
| PresetUpdate.UpdateSucceedsIff | core/graph/graph.cpp:289-307 | the update succeeds exactly between presets that name their node and their endpoints alike, whatever their labels, rates and block sizes |
| PresetUpdate.UpdatedPresetSound | core/graph/graph.cpp:289-307 | a preset graph that was updated is heard as the routes of the source's preset |
| PresetUpdate.RefusedPresetIsUnchanged | core/graph/graph.cpp:289-307 | an update of a preset graph that is refused changes nothing |
| AudioRuntime.Validate | core/control/control_command.cpp:66-323 | the error list of the three validation loops |
| AudioRuntime.ValidConfigurationIff | core/control/control_command.cpp:66-323 | the validator accepts exactly the configurations described without it: per mode the right fields, distinct ids and native devices, bounded channel ranges, one clock master which renders, and no ASIO endpoints or one pair of one driver and timing |
| AudioRuntime.NativeKeyIsExact | core/control/control_command.cpp:251-261 | the joined native key has no collisions |
| AudioRuntime.MatrixRuntimeShape | core/control/control_command.cpp:202-322 | a valid matrix runtime has no ASIO endpoints, or exactly one capture and one render endpoint of one driver, the render endpoint driving the clock |
| AudioRuntime.CounterpartIsUnique | core/control/control_command.cpp:294-321 | the first counterpart found is the only other ASIO endpoint |
| AudioRuntime.ValidIsBounded | core/control/control_command.cpp:66-323 | whatever the mode, a valid configuration has bounded lists and a bounded class id |
| ControlCommand.ApplyCommand | core/control/control_command.cpp:475-565 | the outcome, and that a document it returns is valid |
| ControlCommand.OnlyConnectIsRefusedAfterwards | core/control/control_command.cpp:486-564 | on a valid preset the validation after the edit refuses no command but ConnectRoute |
| ControlCommand.ConnectSucceedsIff | core/control/control_command.cpp:486-504 | ConnectRoute succeeds exactly when both ids are known, the pair is not joined yet and no existing route is shifted against the new one |
| ControlCommand.DisconnectUndoesConnect | core/control/control_command.cpp:486-514 | disconnecting what was just connected restores the document |
| CommandSound.MutingSoundsLikeDisconnecting | core/control/control_command.cpp:506-536 | muting a route sounds the same as disconnecting it, at every output |
| CommandSound.ConnectingAddsARoute | core/control/control_command.cpp:489-503 | connecting adds gain times input to its output and nothing anywhere else |
| CommandSound.SettingAGainReplacesItsTerm | core/control/control_command.cpp:516-525 | setting a gain replaces that one contribution; a muted route stays silent |
| CommandSound.UnmutingUndoesMuting | core/control/control_command.cpp:527-536 | unmuting restores the document exactly when the route was not muted before |
| CommandSound.GraphHears | core/control/preset_document.cpp:257-349 | the built graph sounds like the route list that the commands edit |
| ControlSession.ControlSession.Handle | core/control/control_session.cpp:77-155 | reply and new state for every kind of command; a rejected one changes nothing |
| ControlSession.ControlSession.HandleBatch | core/control/control_session.cpp:157-197 | the fold of the commands is published as one change, or nothing changes |
| ControlSession.ControlSession.Update | core/control/control_session.cpp:222-246 | prepare then commit: the published graph is the graph of the new preset |
| ControlSession.AcceptedIsBuilt | core/control/control_session.cpp:222-240 | whatever is accepted was built under the next version |
| ControlSession.SessionRunsCountVersions | core/control/control_session.cpp:242-246 | in every run the published graph is that of the current preset and the version has gone up by one for each accepted change, never past its 64 bits |
| ControlSession.NothingAtVersionZero | core/control/control_session.cpp:229-233 | once the versions have wrapped to zero every change is refused |
| ControlSession.BatchIsSequence | core/control/control_session.cpp:172-197 | a batch of route edits is accepted exactly when its commands would be accepted one by one, and leads to the same preset |
| CallbackClock.QpcPeriod | driver/windows_virtual_asio_runtime.cpp:46-63 | exactly which parameters have a period, and that it is frames times frequency over the rate, whole and remainder |
| CallbackClock.AdvanceDeadline | driver/windows_virtual_asio_runtime.h:25-47 | a deadline of the periodic grid, saturated, never past: the first one if it is not past, otherwise the first one after now, with the number of periods skipped |
| CallbackClock.FirstAfterIsUnique | driver/windows_virtual_asio_runtime.h:25-47 | only one answer meets that description |
| CallbackClock.FirstNotPastIff | driver/windows_virtual_asio_runtime.h:37-46 | it is the first deadline of the grid that is not past exactly if the first deadline is not past or now is not on the grid |
| CallbackClock.DueNowIsSkipped | driver/windows_virtual_asio_runtime.h:42-46 | deadline 0, period 10, now 20: the answer is 30 although 20 is due now |
| CallbackClock.DeadlinesDoNotDrift | driver/windows_virtual_asio_runtime.h:58-98 | after n periods the position is exactly n periods, in ticks and a rest below one tick |
| CallbackClock.DueIsExact | driver/windows_virtual_asio_runtime.h:58-98 | the n-th deadline is anchor + floor(n * frames * frequency / sample rate), until it saturates |
| CallbackClock.ExactAfterDenominator | driver/windows_virtual_asio_runtime.h:58-98 | after as many periods as the denominator the pattern repeats with no rest at all |
| CallbackClock.RationalClock.Advance | driver/windows_virtual_asio_runtime.h:65-98 | never a deadline in the past; on time it is the next one of the law, late it is the first one of the law anchored now |
| CallbackClock.RationalClock.Reset | driver/windows_virtual_asio_runtime.h:58-63 | anchors the law at the given time and returns its first deadline |
| CallbackClock.Qpc100ns | driver/windows_virtual_asio_runtime.cpp:34-44 | counter ticks in 100 ns units, rounded down exactly |
| CallbackClock.DelayIsExactIff | driver/windows_virtual_asio_runtime.cpp:309-335 | the delay of the timer is rounded up exactly if and only if (remaining mod frequency) * 10^7 + frequency - 1 fits 64 bits, for every accepted frequency |
| CallbackClock.EveryDelayIsExactIff | driver/windows_virtual_asio_runtime.cpp:309-335 | a frequency rounds every delay exactly if and only if (frequency - 1) * (10^7 + 1) fits 64 bits |
| CallbackClock.ASecondIsLost | driver/windows_virtual_asio_runtime.cpp:309-335 | at the highest accepted frequency one tick less than a second becomes 100 ns |
| SharedMemoryLayout.OnlyTheLimitRefuses | core/platform/virtual_asio_shared_memory_layout.cpp:168-232 | after the range checks no arithmetic overflows: a layout fails exactly when its true size exceeds 256 MiB |
| SharedMemoryLayout.CalculatedValidates | core/platform/virtual_asio_shared_memory_layout.cpp:235-283 | every calculated header validates in each of the four states, exactly when the mapping is large enough, and yields the same layout |
| SharedMemoryLayout.ValidatedIsArranged | core/platform/virtual_asio_shared_memory_layout.cpp:235-283 | every header that validates has aligned, pairwise disjoint header, control and slot regions inside the mapping, each slot with room for its block |
| SharedMemoryLayout.HeadersEqual | core/platform/virtual_asio_shared_memory_layout.cpp:98-132 | true exactly when the headers agree in every field but the state |
| Codecs.IntegersRoundTrip | core/control/control_wire_protocol.cpp:126-139 | an unsigned integer read back from its little-endian bytes is the same |
| Codecs.IntegersAreCanonical | core/control/control_wire_protocol.cpp:25-33 | every byte string of the right length is the encoding of exactly one integer |
| Codecs.TextLawful | core/control/control_wire_protocol.cpp:39-47 | strings: what is written decodes, and what decodes is what is written |
| Codecs.ListRoundTrips | core/control/control_wire_protocol.cpp:182-196 | a list read back behind its count is the same list: the guard of count() against the bytes left never rejects a genuine one |
| Codecs.ElementsTakeBytes | core/control/control_wire_protocol.cpp:189-194 | n elements take at least n bytes, which the guard of count() relies on |
| Codecs.DependsLawful | core/control/control_wire_protocol.cpp:521-538 | a part whose form depends on an earlier part keeps the laws |
| Codecs.FlaggedLawful | core/control/control_wire_protocol.cpp:664-919 | a field behind a flag is a bijection on its values and the default |
| WireStream.Reader.constructor | core/control/control_wire_protocol.cpp:98-124 | which headers open a message, in which order the checks refuse, and where the reader then stands |
| WireStream.Writer.Finish | core/control/control_wire_protocol.cpp:58-72 | the header is filled in before the payload, or the first error is reported |
| WirePreset.EncodePreset | core/control/control_wire_protocol.cpp:254-279 | field by field, the encoding of the preset |
| WirePreset.DecodePreset | core/control/control_wire_protocol.cpp:281-324 | field by field, the decoding of the preset; the first error sticks |
| WirePreset.PresetLawful | core/control/control_wire_protocol.cpp:254-324 | presets with finite gains and their encodings correspond one to one |
| WireCommand.EncodeCommand | core/control/control_wire_protocol.cpp:542-583 | loop by loop, the encoding of the command |
| WireCommand.DecodeCommand | core/control/control_wire_protocol.cpp:585-662 | version gate by version gate, the decoding of the command, or its first error |
| WireCommand.CommandsRoundTrip | core/control/control_wire_protocol.cpp:542-662 | every command that encodes and has finite gains decodes to itself |
| WireRefusals.CommandsDecodeIff | core/control/control_wire_protocol.cpp:149-155 | a command that is written decodes to itself if its gains are finite and is refused as an invalid value otherwise |
| EncodedSizes.AWrittenCommandIsLost | core/control/control_wire_protocol.cpp:36-36 | one concrete command with an infinite gain, written and then refused |
| WireCommand.CommandsAreCanonical | core/control/control_wire_protocol.cpp:585-662 | bytes of version 14 that decode to a command are the encoding of that command |
| WireCommand.ExpressibleIff | core/control/control_wire_protocol.cpp:149-155 | the commands that decode are those with finite gains |
| WireMessage.NoTwoMessagesMeanTheSame | core/control/control_wire_protocol.cpp:96-124 | two messages of the current version that decode to the same value are equal |
| WireResponse.ResponsesRoundTrip | core/control/control_wire_protocol.cpp:664-919 | a response decodes to itself with every field behind a false flag reset, if its floats are finite and its extension list matches |
| WireRefusals.ResponsesDecodeIff | core/control/control_wire_protocol.cpp:664-919 | a response that is written decodes to its normal form if its floats are finite and its extension list matches, and is refused as an invalid value otherwise |
| WireRefusals.MismatchedResponsesAreRefused | core/control/control_wire_protocol.cpp:509-538 | with runtime endpoints but no runtime flag the decoder always refuses: the extension list is written regardless of the flag |
| EncodedSizes.AWrittenResponseIsLost | core/control/control_wire_protocol.cpp:509-538 | one concrete response of that kind |
| PresetFile.PresetFilesRoundTrip | core/control/preset_file_codec.cpp:78-130 | every preset that encodes decodes to itself |
| PresetFile.EncodingTellsPresetsApart | core/control/preset_file_codec.cpp:78-96 | different presets never encode to the same file |
| SessionDocument.Validate | core/control/session_document.cpp:80-185 | the error list of the validation loops |
| SessionDocument.ValidIff | core/control/session_document.cpp:80-185 | the validator accepts exactly the sessions described without it, the runtime configuration included |
| SessionDocument.DuplicatesAreFound | core/control/session_document.cpp:126-172 | although a device that repeats one identity does not enter the others, a duplicate is reported exactly when two devices share an identity, letters folded |
| SessionFile.SessionFilesRoundTrip | core/control/session_file_codec.cpp:155-448 | a session that encodes decodes to itself if and only if every group id is at most 64 KiB; otherwise the decoder refuses the file |
| SessionLoss.AWrittenSessionIsLost | core/control/session_file_codec.cpp:230-237 | a concrete valid session that is written and cannot be read back |
| SessionFile.SessionFilesAreCanonical | core/control/session_file_codec.cpp:155-448 | a file of the current version and schema whose preset part is the one the encoder writes is the file the encoder writes |
| SessionStream.EncodeSessionFile | core/control/session_file_codec.cpp:155-250 | loop by loop and with the size patched in, the encoding of the session |
| SessionStream.DecodeSessionFile | core/control/session_file_codec.cpp:252-448 | the decoding of all five versions, in the order of the checks |
| SessionCodec.CountedLawful | core/control/session_file_codec.cpp:312-341 | lists behind a bounded count, without a guard on the bytes left, keep the laws |
| SessionCodec.LongGroupsStop | core/control/session_file_codec.cpp:416-428 | an extension list with a group id that is too long stops the decoder wherever it stands |

## Left out

- The wrap of ring sequences, slot generations and diagnostics counters at 2^64: they are unbounded; graph versions, deadlines and layout sizes keep their 64 bits.
- Weak memory orders: the ring, the block queues and the slot protocol are stated under sequential consistency; the publisher and the error channel use it in the source.
- Liveness of the spin loops in `publish`, `attach`, `detach` and `snapshot`: only safety is proved.
- RingProtocol reads each field of a slot once per pop, where the source names a field several times while nobody may write it.
- The classes of the two buses, the transport ring and the audio source run one operation at a time; what happens between their atomic steps is the subject of the protocol modules. A block is copied in one step there.
- Floating-point rounding: samples and gains are processed as reals; peaks, meters, clip counts, timing and xrun diagnostics are not modelled. `MeterNode` passes its input on, which is what the graph model keeps of it.
- Diagnostics counters of the buses, ring and source other than those the contracts name.
- The FIFO keeps one frame per cell where the source keeps one array per channel.
- Error messages: an error is its code.
- encode_control_response() and decode_control_response(): modelled as the pure functions `EncodeResponse` and `DecodeResponse`, not loop by loop; the order of the bytes, the flags, the version gates and the first error are kept. Their diagnostics counters stand in lists.
- Values outside an enumeration, which C++ can hold and the encoders would write: the model's enumerations have no such values.
- The virtual endpoint registry of a session: whether it accepts a request is a parameter of `Handle`.
- `kVirtualAsioMaxChannels` is 256 in the code although the messages speak of sixty-four; the model follows the code.
- Character classes of the C library in session identities: the ones of the C locale.
- The defaults of `Graph::add_node` for missing ids and labels, and `RouteMatrix::clear_routes`.
- `initialize` and `attach` of the transport ring: their layout checks live in virtual_wasapi_transport_layout.cpp, which is not part of this model; slot count, frames per slot and channels are parameters.
- core/control/virtual_asio_broker_protocol.cpp: a smaller copy of the wire codec.
- The resampling source, the WASAPI recovery policy, Windows calls, the tools and the Qt and VSTGUI front ends.
