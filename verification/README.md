# Verified model of aiosendspin

A Dafny 4.11 model of the parts of aiosendspin, the synchronized-audio protocol library, that hold
state machines and exact arithmetic. Methods that change state are Dafny classes with the same fields and
the same steps; each is proved equal to a function of the old state, and the promises of the protocol are
lemmas about those functions over every input, every run or every interleaving.

Verify everything with `dafny verify dfyconfig.toml`.

## What is modelled

| file | part |
|---|---|
| `Wire.dfy` | fragmentation of oversized transport messages, both framings, and the reassembly state machine |
| `BufferTracker.dfy` | the byte and duration accounting of chunks on their way to a client, with a changeable output delay |
| `ScheduledState.dfy`, `ScheduledProtocol.dfy` | one current and one pending role state on the server, and their agreement with every client |
| `SourceBridge.dfy`, `BridgeTracking.dfy` | the latency-regulated buffer between capture and a steady consumer |
| `TimeFilter.dfy`, `TimeEstimates.dfy` | the offset/drift Kalman filter, the conversions between clocks, the offset measurement |
| `RecordStore.dfy` | pairing records, eviction, superseded records, and the connection slots |
| `Pairing.dfy` | the round budget, the pairing window, and the order of the finalize exchange |
| `SourceStream.dfy` | source-stream authorization under concurrent tasks |
| `Artwork.dfy` | artwork messages and the transfer state machine |
| `Capture.dfy`, `CaptureSends.dfy`, `EncodedTimeline.dfy` | PCM framing, capture time stamps, and the timeline of the FLAC and Opus encoders |
| `Flac.dfy`, `FlacHeaders.dfy` | the FLAC header scan and its CRC, and the headers it takes |
| `Common.dfy`, `Division.dfy` | bytes, options, and rounding down to whole units |

Each class has a value counterpart (`Receive` for `EncryptedWebSocket`, `Fed` and `Pulled` for
`SourceBridge`, and so on) which its methods' contracts equate with, field by field, and which the lemmas
are about. Inputs from outside are parameters: the clock, the resampler's output, PAKE verdicts, encoder
packets, decrypted frames, whether a timer is due.

## Where the code does less than it says

These are stated as exact conditions, with the failing input or run beside them.

* **Scheduled state.** The members do not always agree with the group. When a pending state that was
  already sent, and differs from the current one, is replaced from within the 20 s lead by a state for a
  later time, every schedule-capable member that has not received the replacement by then shows the
  replaced state until the replacement is due. Over every run, whatever the delays, agreement holds
  throughout if and only if no step does that (`ScheduledProtocol.AgreementIffNeverRacing`); the condition
  is read off the group before the call (`Racing`), a single racing step breaks agreement from any
  agreeing world (`RacingBreaks`), and `ReplacedStateShown` is such a run from an empty group. The
  documentation of `set_color` (aiosendspin/server/roles/color/group.py:31-33) asks for more than that: to wait for
  the first palette before scheduling a second. For one clock step the exact condition is
  `TickAgreesIff`. A send timer that is late loses the state as well (`LateSendIff`).
* **Record capacity.** The slots keep a completing pairing within the capacity with at most one connection
  over the limit (`RecordStore.PairingFits`). Connections over the limit protect the record their
  handshake resolved, too: with every slot taken, two of them are enough to leave a full store one record
  too large (`CrowdOverflows`, a run of accepts). In general it fits exactly when the other connections
  back fewer stored records than the capacity (`PairingFitsIff`), and when each backs one of its own,
  exactly when slots and connections over the limit together do not exceed it (`OneEachFitsIff`).
* **Binary messages of type 0, and messages over 64 MiB.** `send_bytes` accepts a first byte of 0, and the
  receiver takes the message for JSON; the sender does not check the size the receiver enforces. With
  either framing the round trip holds exactly for the other messages (`Wire.RoundTripIff`). With the
  current framing nothing of an oversize message gets through. With the legacy framing its tail can be
  delivered as a message nobody sent (`LegacyTailDelivered`; `StrayReceived` says exactly what comes out).
* **Source stream.** A stop awaits a start in flight while that start's authorization stands. Once the role
  was removed or unavailability was reported, a stop has no effect and the stream opens
  (`SourceStream.RevokedStartOpens`); the exact condition is `AtOnceLeavesQuietIff`.
* **Buffer accounting.** A prune goes no further than the first chunk still to be played, so chunks behind
  it that are done already keep counting. The counters are right exactly when there is none
  (`BufferTracker.CountedIsLiveIff`), and two chunks registered out of order are enough
  (`RegisterOutOfOrder`).
* **Clock conversion.** There and back is within a microsecond for drift above -2/3, and no further
  (`TimeFilter.RoundTripWithinOne`, `RoundTripWorseBeyond`); it is exact exactly when
  `RoundTripExactIff` says, so for every positive drift. The measured offset is within the reported error
  of the true one except for one microsecond of rounding (`BracketExactIff`).
* **FLAC flush.** A flush that yields a packet before any chunk did advances the frame count without an
  anchor; until one comes the pending timestamp does not move (`EncodedTimeline.UnanchoredPendingIff`,
  with `FlushLeavesPendingBehind` as the run).

## Model

| member | source | states |
|---|---|---|
| Wire.Fragment | aiosendspin/noise/wire.py:324-360 | splitting is a loop over slices; its frames are those of the specification, for both framings |
| Wire.FramesFitTransport | aiosendspin/noise/wire.py:145-154 | every emitted frame is at most 65519 bytes, whatever the message and the framing, and all but the last are just that |
| Wire.EncryptedWebSocket.Decode | aiosendspin/noise/wire.py:188-213 | one received frame: which event comes out, and the whole new reassembly state |
| Wire.EncryptedWebSocket.OnFragment | aiosendspin/noise/wire.py:215-238 | a fragment with a flags byte: reserved bits, an unexpected first or continuation, an oversize buffer |
| Wire.EncryptedWebSocket.OnLegacyFragment | aiosendspin/noise/wire.py:240-256 | a legacy fragment, taken only by a receiver that opted in; a callback that raises leaves the receiver idle |
| Wire.LegacyCallbackIff | aiosendspin/noise/wire.py:240-256 | the callback runs exactly when an idle receiver begins a legacy reassembly, but for one too long to begin |
| Wire.EncryptedWebSocket.StartReassembly | aiosendspin/noise/wire.py:258-262 | reassembly starts empty with the type and the framing |
| Wire.EncryptedWebSocket.AppendFragment | aiosendspin/noise/wire.py:264-275 | the 64 MiB bound, and delivery on the last fragment |
| Wire.EncryptedWebSocket.ResetReassembly | aiosendspin/noise/wire.py:277-281 | the receiver is idle |
| Wire.EncryptedWebSocket.Error | aiosendspin/noise/wire.py:289-292 | a violation leaves the receiver idle |
| Wire.RunIffShaped | aiosendspin/noise/wire.py:215-275 | a run of frames is one first fragment, then continuations, the last one final: declarative and incremental form agree |
| Wire.InFlightIsOpenRun | aiosendspin/noise/wire.py:188-275 | over every stream the buffer in flight is the data of an open run of consecutive frames of one framing, within 64 MiB |
| Wire.DeliveredIsContiguousRun | aiosendspin/noise/wire.py:188-288 | every message delivered by a fragment is its original type plus the data of one contiguous complete run |
| Wire.RunReceived | aiosendspin/noise/wire.py:188-288 | conversely an idle receiver delivers every complete run within the bound, and is idle again |
| Wire.ViolationLeavesIdle | aiosendspin/noise/wire.py:277-292 | every protocol violation leaves the receiver idle |
| Wire.OutcomeIff | aiosendspin/noise/wire.py:188-292 | a violation is reported for exactly a message of another kind, a frame that fails authentication, and a broken, misplaced or oversize frame; nothing for exactly a good fragment that is not the last |
| Wire.FragmentsAreCompleteRun | aiosendspin/noise/wire.py:324-360 | the sender's fragments form one complete run of exactly the message |
| Wire.StreamRoundTrip | aiosendspin/noise/wire.py:128-154 | any list of sendable messages up to 64 MiB comes back as exactly that list, and the receiver ends idle |
| Wire.RoundTripIff | aiosendspin/noise/wire.py:128-154 | with either framing one message comes back, alone, exactly when it is within 64 MiB and not binary with type byte 0; past that a violation is always raised |
| Wire.OversizeReceived | aiosendspin/noise/wire.py:264-275 | a message over 64 MiB raises one violation, and an idle receiver takes the frames that are left, with either framing |
| Wire.OversizeViolates | aiosendspin/noise/wire.py:215-275 | with the current framing it raises only violations |
| Wire.RestartIsFragments | aiosendspin/noise/wire.py:346-360 | legacy continuations of enough data are byte for byte the fragments of another message |
| Wire.StrayReceived | aiosendspin/noise/wire.py:241-275 | exactly what an idle receiver makes of leftover legacy frames, however many |
| Wire.GivenUpIs | aiosendspin/noise/wire.py:264-275 | which bytes of an oversize legacy message those are: all behind the 1024th continuation |
| Wire.LegacyTailDelivered | aiosendspin/noise/wire.py:241-275 | they are delivered as a message nobody sent when they start with a full frame whose first byte is no transport type |
| Wire.OrphansOnlyViolate | aiosendspin/noise/wire.py:215-238 | continuations without a first fragment yield only violations |
| BufferTracker.CountedIsLiveIff | aiosendspin/server/audio.py:98-112 | the counted suffix sums to the live chunks exactly when no complete chunk stands behind a live one |
| BufferTracker.OutOfOrderOvercounts | aiosendspin/server/audio.py:98-112 | with two chunks out of order it sums to both, and one is live |
| BufferTracker.RegisterOutOfOrder | aiosendspin/server/audio.py:273-298 | a tracker reaches that state |
| BufferTracker.InOrderNothingBehind | aiosendspin/server/audio.py:98-112 | end-time order gives that condition for every delay and clock |
| BufferTracker.DeadPrefixSkipped | aiosendspin/server/audio.py:85-112 | chunks forgotten long ago never count again, whatever the delay becomes |
| BufferTracker.SimulateCompletion | aiosendspin/server/audio.py:215-236 | what the wait is in every case: exact where the bytes can fit; with a transmission that leaves no room, the recheck interval or the furthest completion ahead of it, whichever is longer; for bytes that never fit, until the buffer is empty |
| BufferTracker.Recount | aiosendspin/server/audio.py:85-96 | the bytes of the rebuilt queue |
| BufferTracker.RecountDuration | aiosendspin/server/audio.py:85-96 | the duration of the rebuilt queue |
| BufferTracker.Queues.FrontLiveMeansCounted | aiosendspin/server/audio.py:98-112 | with a live front the buffered queue is what a scan of every chunk ever registered would count |
| BufferTracker.Queues.InOrderMeansLive | aiosendspin/server/audio.py:98-112 | in end-time order that is exactly the live chunks |
| BufferTracker.Queues.HorizonIsFurthest | aiosendspin/server/audio.py:114-119 | the horizon is the furthest completion of any live chunk |
| BufferTracker.Queues.WaitOfBuffered | aiosendspin/server/audio.py:215-236 | that wait is the same judged over all chunks ever registered |
| BufferTracker.BufferTracker.CountersMatchScan | aiosendspin/server/audio.py:98-112 | after every prune the running counters equal the sums over all chunks that are live under the current delay |
| BufferTracker.BufferTracker.PruneConsumed | aiosendspin/server/audio.py:98-112 | the queues lose exactly completed and expired chunks; what was registered is unchanged |
| BufferTracker.BufferTracker.DropCompleted | aiosendspin/server/audio.py:98-112 | the loop over the buffered queue |
| BufferTracker.BufferTracker.ForgetExpired | aiosendspin/server/audio.py:98-112 | the loop over the completed queue |
| BufferTracker.BufferTracker.SetOutputDelay | aiosendspin/server/audio.py:85-96 | a new delay re-derives both queues and both counters |
| BufferTracker.BufferTracker.Register | aiosendspin/server/audio.py:273-293 | a chunk joins the count and is transmitting until finished; none of zero bytes |
| BufferTracker.BufferTracker.FinishTransmission | aiosendspin/server/audio.py:295-298 | only the transmitting chunk is released |
| BufferTracker.BufferTracker.Reset | aiosendspin/server/audio.py:300-307 | nothing registered remains |
| BufferTracker.BufferTracker.BufferedHorizon | aiosendspin/server/audio.py:114-119 | the horizon over all live chunks |
| BufferTracker.BufferTracker.HasCapacityNow | aiosendspin/server/audio.py:121-136 | whether the bytes fit now, judged over all live chunks |
| BufferTracker.BufferTracker.HasDurationCapacity | aiosendspin/server/audio.py:138-159 | whether the duration fits now |
| BufferTracker.BufferTracker.TimeUntilCapacity | aiosendspin/server/audio.py:215-236 | that wait over everything registered, transmission or not |
| BufferTracker.BufferTracker.TimeUntilEndTimeCapacity | aiosendspin/server/audio.py:187-213 | the least wait after which the later of the end time and the last chunk is within the horizon, and none for a late chunk |
| BufferTracker.BufferTracker.TimeUntilDurationCapacity | aiosendspin/server/audio.py:161-185 | the least wait after which the duration fits, if what counts now drains in real time |
| BufferTracker.BufferTracker.TimeUntilReady | aiosendspin/server/audio.py:238-266 | the longer of the byte and the duration wait, with or without an end time |
| BufferTracker.BufferTracker.ReadyIff | aiosendspin/server/audio.py:238-266 | with no transmission in the way the chunk can be sent at an instant exactly when that is so far away |
| ScheduledState.ScheduledRoleState.Current | aiosendspin/server/roles/scheduled_state.py:43-47 | reading promotes a pending state whose time has come, once |
| ScheduledState.ScheduledRoleState.Schedule | aiosendspin/server/roles/scheduled_state.py:49-52 | one pending state, replacing any other |
| ScheduledState.ScheduledRoleState.Apply | aiosendspin/server/roles/scheduled_state.py:54-58 | a current state, and none pending |
| ScheduledState.SetNowShows | aiosendspin/server/roles/color/group.py:25-47 | a state set for now is what the group shows from now on, and what every message sent carries |
| ScheduledState.SetLaterShows | aiosendspin/server/roles/scheduled_state.py:123-151 | a state scheduled for later, however far ahead, is shown from exactly then on and nothing changes before; it is announced at once within 20 s and by a timer set for that otherwise |
| ScheduledState.ClearNotScheduled | aiosendspin/server/roles/color/group.py:37-39 | scheduling a clear changes and sends nothing |
| ScheduledState.CancelShows | aiosendspin/server/roles/scheduled_state.py:90-104 | after a cancel the group shows for good what it showed |
| ScheduledState.OthersShowTheSame | aiosendspin/server/roles/scheduled_state.py:75-84 | timers and joining members change nothing of what the group shows |
| ScheduledState.SendsRouted | aiosendspin/server/roles/scheduled_state.py:184-186 | looping over the members sends each exactly the messages addressed to it, in order |
| ScheduledState.ScheduledStateGroupRole.SendTo | aiosendspin/server/roles/scheduled_state.py:184-186 | one message to every member it is addressed to |
| ScheduledState.ScheduledStateGroupRole.CancelSendScheduled | aiosendspin/server/roles/scheduled_state.py:178-182 | no timer and nothing sent ahead |
| ScheduledState.ScheduledStateGroupRole.DoApply | aiosendspin/server/roles/scheduled_state.py:116-121 | the state applies and is sent to all |
| ScheduledState.ScheduledStateGroupRole.DoSchedule | aiosendspin/server/roles/scheduled_state.py:123-151 | the three branches: restate to cancel, send now within the lead, or wait for the send timer |
| ScheduledState.ScheduledStateGroupRole.DoSendScheduled | aiosendspin/server/roles/scheduled_state.py:153-169 | the pending state goes out, and legacy members wait for its time |
| ScheduledState.ScheduledStateGroupRole.DoSendDue | aiosendspin/server/roles/scheduled_state.py:171-176 | legacy members get the due state |
| ScheduledState.ScheduledStateGroupRole.DoSet | aiosendspin/server/roles/color/group.py:25-60 | the caller promotes first; a clear cannot be scheduled; which group event is emitted |
| ScheduledState.ScheduledStateGroupRole.CancelScheduled | aiosendspin/server/roles/scheduled_state.py:90-104 | a sent pending state is cancelled by restating the current one |
| ScheduledState.ScheduledStateGroupRole.OnMemberJoin | aiosendspin/server/roles/scheduled_state.py:75-84 | a new member gets the current state, and the pending one if sent |
| ScheduledState.ScheduledStateGroupRole.Subscribe | aiosendspin/server/roles/base.py:105-110 | a role joins once, and then gets what a joining member gets |
| ScheduledState.ScheduledStateGroupRole.Unsubscribe | aiosendspin/server/roles/base.py:112-116 | the role is gone, and nothing else changes |
| ScheduledState.DroppedKeepsRest | aiosendspin/server/roles/base.py:112-116 | nobody else is gone, and roles stay distinct |
| ScheduledState.ScheduledStateGroupRole.OnTimer | aiosendspin/server/roles/scheduled_state.py:153-176 | the armed timer's action |
| ScheduledProtocol.DeliverShows | aiosendspin/client/connection.py:1799-1844 | a client shows the latest due message of its chain, and holds a future last one |
| ScheduledProtocol.ReadOrLeft | aiosendspin/server/roles/scheduled_state.py:37-47 | reading brings a due state into effect, and leaving ends one membership |
| ScheduledProtocol.ShownLater | aiosendspin/client/connection.py:1799-1844 | how that changes as the clock moves |
| ScheduledProtocol.TickAgreesIff | aiosendspin/client/connection.py:1799-1844 | a clock step keeps a member in agreement exactly when every message that overtakes its successor carries the current state |
| ScheduledProtocol.SetFollows | aiosendspin/server/roles/color/group.py:25-47 | after any set, what is sent takes every member to the server's new state |
| ScheduledProtocol.CancelFollows | aiosendspin/server/roles/scheduled_state.py:90-104 | likewise after a cancel |
| ScheduledProtocol.FireFollows | aiosendspin/server/roles/scheduled_state.py:153-176 | likewise after a timer |
| ScheduledProtocol.JoinFollows | aiosendspin/server/roles/scheduled_state.py:75-84 | a joining member is brought to the server's state |
| ScheduledProtocol.LegacyTickAgrees | aiosendspin/server/roles/scheduled_state.py:153-176 | members without scheduling show the current state at every instant at which their timer is not due |
| ScheduledProtocol.StepKeepsAgreementIff | aiosendspin/server/roles/scheduled_state.py:75-186 | every step of server, client, channel and clock keeps agreement, a clock step exactly when no member is so overtaken |
| ScheduledProtocol.AgreementOverCalmRuns | aiosendspin/server/roles/scheduled_state.py:75-186 | agreement over every run without such a clock step |
| ScheduledProtocol.AgreementIffNeverRacing | aiosendspin/server/roles/scheduled_state.py:123-151 | over every run, any delays, all members agree throughout and after any clock step if and only if no step races |
| ScheduledProtocol.RacingBreaks | aiosendspin/server/roles/scheduled_state.py:123-151 | from any agreeing world, after a racing step the clock step to the replaced state breaks agreement with every schedule-capable member |
| ScheduledProtocol.AgreementFromStart | aiosendspin/server/roles/scheduled_state.py:68-73 | both, from the empty group |
| ScheduledProtocol.DrainedMemberMatches | aiosendspin/client/connection.py:1799-1844 | delivering what is in flight leaves the member with the group's current state, and its pending one exactly when sent |
| ScheduledProtocol.SetReachesAll | aiosendspin/server/roles/color/group.py:25-47 | from any agreeing world, once what a set for now sends is delivered every member shows just that state |
| ScheduledProtocol.CancelReachesAll | aiosendspin/server/roles/scheduled_state.py:90-104 | and after a cancel the state shown at that moment |
| ScheduledProtocol.ScheduleReachesAll | aiosendspin/server/roles/scheduled_state.py:123-176 | with timers on time and nothing left in flight every member shows a scheduled state at its timestamp, however far ahead that is |
| ScheduledProtocol.StepIsCalm | aiosendspin/server/roles/scheduled_state.py:123-151 | in a steady world no clock step overtakes a member wrongly |
| ScheduledProtocol.StepKeepsSteady | aiosendspin/server/roles/scheduled_state.py:123-151 | a step that does not race keeps every member showing the same state until its last message is due |
| ScheduledProtocol.ReplacedStateShown | aiosendspin/server/roles/scheduled_state.py:123-151 | for any two times within the lead, a run from an empty group in which a member shows the replaced state, which the group never does, until the replacement is due |
| ScheduledProtocol.LateSendIff | aiosendspin/server/roles/scheduled_state.py:123-169 | with a late send timer a member agrees only if nothing changed, and a read makes the timer send nothing |
| SourceBridge.Limits | aiosendspin/audio/source_bridge.py:91-94 | the limits are refused exactly when the maximum does not exceed the target |
| SourceBridge.CountsWholeFrames | aiosendspin/audio/source_bridge.py:141-154 | a feed takes and counts whole frames, and anything else changes nothing |
| SourceBridge.SourceBridge.Feed | aiosendspin/audio/source_bridge.py:141-175 | one chunk: tracking, conversion, overflow, window accounting and correction, in that order |
| SourceBridge.SourceBridge.EndFeed | aiosendspin/audio/source_bridge.py:164-175 | the window closes after 10 s of fed audio |
| SourceBridge.SourceBridge.ReopenWindow | aiosendspin/audio/source_bridge.py:167-175 | the window's extremes are forgotten |
| SourceBridge.SourceBridge.Read | aiosendspin/audio/source_bridge.py:177-205 | one pull, priming included |
| SourceBridge.SourceBridge.TrackTimestamp | aiosendspin/audio/source_bridge.py:207-226 | reset, gap fill or slow skew |
| SourceBridge.SourceBridge.TrimOverflow | aiosendspin/audio/source_bridge.py:156-161 | oldest audio over the maximum is dropped |
| SourceBridge.SourceBridge.ApplyWindowCorrection | aiosendspin/audio/source_bridge.py:231-270 | drop, insert, or count towards convergence |
| SourceBridge.SourceBridge.AppendSilence | aiosendspin/audio/source_bridge.py:304-305 | silence of a duration |
| SourceBridge.SourceBridge.SampleOccupancy | aiosendspin/audio/source_bridge.py:307-310 | the extremes take in the current occupancy |
| SourceBridge.SourceBridge.Flush | aiosendspin/audio/source_bridge.py:343-352 | the resampler's tail, within the maximum |
| SourceBridge.SourceBridge.Reset | aiosendspin/audio/source_bridge.py:354-368 | the state of a new bridge |
| SourceBridge.DropIsExact | aiosendspin/audio/source_bridge.py:300-302 | dropping a duration lands within one frame above the exact level, never below |
| SourceBridge.InsertIsExact | aiosendspin/audio/source_bridge.py:300-302 | inserting one lands within one frame below it, never above |
| SourceBridge.LatencyBounded | aiosendspin/audio/source_bridge.py:141-205 | over every run of feed, read and flush: whole frames, and at most one frame over the maximum latency |
| SourceBridge.CorrectionStaysOnItsSide | aiosendspin/audio/source_bridge.py:231-270 | a correction shifts by the window's deviation to within a frame: a drop never goes below the target, an insertion never above |
| SourceBridge.PrimingStartsAtTarget | aiosendspin/audio/source_bridge.py:177-193 | playback starts with the target buffered, at most one frame more |
| SourceBridge.PullTakesFront | aiosendspin/audio/source_bridge.py:194-205 | a pull has exactly the wanted length: the front of the buffer, padded only while waiting or when it runs out |
| SourceBridge.ConsumerHearsInOrder | aiosendspin/audio/source_bridge.py:141-205 | over every run the pulls are successive stretches of the appended audio: nothing repeated, nothing reordered, the buffer is the unread rest |
| SourceBridge.GapFillRealigns | aiosendspin/audio/source_bridge.py:218-222 | after a filled gap the sample position reaches the timestamp to within a frame and never passes it |
| SourceBridge.SkewFollows | aiosendspin/audio/source_bridge.py:223-226 | the skew moves at most a twentieth of the fed duration towards the timestamp, never past it |
| BridgeTracking.FirstAdvances | aiosendspin/audio/source_bridge.py:150-154 | an accepted chunk advances the bridge by its own length: exactly after a first or jumping chunk |
| BridgeTracking.GapAdvances | aiosendspin/audio/source_bridge.py:207-222 | after a filled gap to within a frame and a microsecond |
| BridgeTracking.SkewAdvances | aiosendspin/audio/source_bridge.py:223-226 | otherwise closing a deviation by exactly up to a twentieth of the chunk |
| BridgeTracking.ConsecutiveNeverFills | aiosendspin/audio/source_bridge.py:141-229 | over every run chunks that follow on from one another never have silence put between them |
| BridgeTracking.JitterNeverDisturbs | aiosendspin/audio/source_bridge.py:207-229 | nor do timestamps within 7.5 ms of a steady clock, and they never start the bridge over |
| BridgeTracking.FedKeeps | aiosendspin/audio/source_bridge.py:141-162 | a chunk is kept behind what was there: nothing is dropped within the maximum latency and only the oldest above it |
| BridgeTracking.WindowCloses | aiosendspin/audio/source_bridge.py:164-175 | the window grows by what is fed, and is corrected and reopened at 10 s |
| BridgeTracking.FlushKeeps | aiosendspin/audio/source_bridge.py:343-352 | likewise for a flush |
| BridgeTracking.PlaysFromTarget | aiosendspin/audio/source_bridge.py:177-205 | playback starts as soon as the target is buffered and plays the buffer from then on; before that there is only silence |
| BridgeTracking.WindowRemembersLevels | aiosendspin/audio/source_bridge.py:307-310 | over every run the extremes are those of all levels since the window opened, and the count of windows is their streak over the limit |
| BridgeTracking.CorrectsWhatLasts | aiosendspin/audio/source_bridge.py:231-270 | over every run a window shifts the buffer by the amount by which each of its levels was off, and by nothing otherwise |
| TimeFilter.PsdIffNoNegativeVariance | aiosendspin/client/time_sync.py:145-172 | the covariance test used here means that no combination of the states has negative variance |
| TimeFilter.PredictKeepsPsd | aiosendspin/client/time_sync.py:145-172 | prediction with process noise keeps the covariance positive semidefinite |
| TimeFilter.ForgetKeepsPsd | aiosendspin/client/time_sync.py:174-187 | so does adaptive forgetting |
| TimeFilter.CorrectKeepsPsd | aiosendspin/client/time_sync.py:189-207 | so does the update, floor included |
| TimeFilter.CorrectBoundedBySample | aiosendspin/client/time_sync.py:189-207 | with the floor inactive the offset variance ends at most the sample's, and at most the prior one |
| TimeFilter.GainIsOptimal | aiosendspin/client/time_sync.py:189-199 | no other weight of prediction and measurement leaves a smaller variance |
| TimeEstimates.GainsAreOptimal | aiosendspin/client/time_sync.py:188-207 | offset and drift gain are optimal together: in every direction no other pair leaves a smaller variance than the stored covariance, which is what they leave |
| TimeEstimates.PredictPropagates | aiosendspin/client/time_sync.py:147-172 | the predicted covariance is that of the propagated state plus the gathered noise |
| TimeEstimates.PriorVariance | aiosendspin/client/time_sync.py:174-186 | in every direction a sample is weighed against just that, inflated exactly when after a hundred measurements one misses by more than three times its error |
| TimeEstimates.WeighedByVariance | aiosendspin/client/time_sync.py:188-207 | the new offset is the mean of prediction and measurement weighted by each other's variance, and the drift moves as the prior correlates the two |
| TimeEstimates.SecondVariance | aiosendspin/client/time_sync.py:126-143 | the variance of the first drift is that of a difference quotient |
| TimeFilter.FlooredExceedsSample | aiosendspin/client/time_sync.py:189-191 | with the floor active the bound fails |
| TimeFilter.MeasuredKeepsSound | aiosendspin/client/time_sync.py:79-220 | every measurement keeps the filter sound, whichever branch it takes |
| TimeFilter.Filtered | aiosendspin/client/time_sync.py:79-220 | over every sequence of measurements the covariance stays positive semidefinite |
| TimeFilter.OffsetBetween | aiosendspin/client/time_sync.py:194-199 | a corrected offset lies between the prediction and the measurement |
| TimeEstimates.ElementFollows | aiosendspin/client/time_sync.py:215-220 | over every run the published element holds the filter's own time, offset and drift |
| TimeEstimates.SignificantIff | aiosendspin/client/time_sync.py:209-213 | the drift is in use exactly when it is more than two standard deviations from none |
| TimeEstimates.ServerTimeAtMeasurement | aiosendspin/client/time_sync.py:222-251 | at a measurement server time is as measured for the first two, and between predicted and measured from then on |
| TimeEstimates.CountsAdvancing | aiosendspin/client/time_sync.py:101-106 | over every run just the samples whose time advances count |
| TimeEstimates.LineFollowed | aiosendspin/client/time_sync.py:108-205 | clocks that drift apart steadily are followed exactly, the drift from the second measurement on |
| TimeEstimates.LineServerTime | aiosendspin/client/time_sync.py:222-251 | with the drift in use server time is then right at every instant |
| TimeFilter.VarianceBoundedBySample | aiosendspin/client/time_sync.py:126-207 | the offset variance is at most the sample's |
| TimeFilter.SendspinTimeFilter.constructor | aiosendspin/client/time_sync.py:67-77 | squared noise parameters, no measurement yet |
| TimeFilter.SendspinTimeFilter.Update | aiosendspin/client/time_sync.py:79-220 | the whole new state of one measurement |
| TimeFilter.SendspinTimeFilter.TakeOffset | aiosendspin/client/time_sync.py:110-124 | the first measurement |
| TimeFilter.SendspinTimeFilter.TakeDrift | aiosendspin/client/time_sync.py:126-143 | the second one |
| TimeFilter.SendspinTimeFilter.PredictAhead | aiosendspin/client/time_sync.py:145-187 | the prior of a later one |
| TimeFilter.SendspinTimeFilter.TakeSample | aiosendspin/client/time_sync.py:189-220 | its update |
| TimeFilter.SendspinTimeFilter.Reset | aiosendspin/client/time_sync.py:280-290 | the initial state |
| TimeFilter.RootRounds | aiosendspin/client/time_sync.py:307-310 | the rounded square root, characterized without the root: for every non-negative number, exactly when it rounds so |
| TimeFilter.SendspinTimeFilter.ErrorDefined | aiosendspin/client/time_sync.py:307-310 | from the first measurement on, and not before, `error` is one well-defined integer |
| TimeFilter.ErrorWithinSample | aiosendspin/client/time_sync.py:307-310 | after a measurement it is at most half the error given with it, unless the variance floor is active |
| TimeFilter.RoundIsNearest | aiosendspin/client/time_sync.py:248-249 | rounding picks the nearest integer, the even one of two |
| TimeFilter.ServerTimeMonotone | aiosendspin/client/time_sync.py:222-249 | client-to-server time is monotone for drift above -1 |
| TimeFilter.RoundTripExactly | aiosendspin/client/time_sync.py:222-278 | there and back, an instant moves by the rounding residue over the clock rate |
| TimeFilter.RoundTripExactIff | aiosendspin/client/time_sync.py:222-278 | exactly when it comes back unchanged |
| TimeFilter.RoundTripExactForPositiveDrift | aiosendspin/client/time_sync.py:222-278 | always for positive drift |
| TimeFilter.RoundTripWithinOne | aiosendspin/client/time_sync.py:222-278 | within one microsecond for drift above -2/3 |
| TimeFilter.RoundTripWorseBeyond | aiosendspin/client/time_sync.py:222-278 | not so for any drift from there down to -1 |
| TimeFilter.MeasurementBracketsTruth | aiosendspin/client/connection.py:1627-1637 | the true offset is within the reported error of the measurement plus a microsecond, for any two network delays |
| TimeFilter.BracketExactIff | aiosendspin/client/connection.py:1627-1637 | exactly when the extra microsecond is not needed |
| RecordStore.NewestPerServer | aiosendspin/noise/trust_store.py:888-895 | one pass finds for every server the record that none of its others supersedes |
| RecordStore.NewestIsUnique | aiosendspin/noise/trust_store.py:888-895 | no server has two of those |
| RecordStore.ClientPairingStore.StoreRecord | aiosendspin/noise/trust_store.py:731-734 | replaces in place or appends |
| RecordStore.ClientPairingStore.RemoveRecord | aiosendspin/noise/trust_store.py:736-739 | removes one key |
| RecordStore.ClientPairingStore.ReplaceRecordForServerId | aiosendspin/noise/trust_store.py:496-516 | stores, drops the server's unprotected others, evicts |
| RecordStore.ClientPairingStore.EvictOverCapacity | aiosendspin/noise/trust_store.py:531-549 | a stable sort by last use and a loop of removals |
| RecordStore.ClientPairingStore.RemoveSupersededRecords | aiosendspin/noise/trust_store.py:518-529 | a loop of removals over a snapshot |
| RecordStore.SortedSorts | aiosendspin/noise/trust_store.py:537-539 | the sort is by last use, and by storage order on equal times |
| RecordStore.EvictsLeastRecentlyUsed | aiosendspin/noise/trust_store.py:531-549 | every evicted record is less recently used than every evictable one that stays |
| RecordStore.EvictedIsExact | aiosendspin/noise/trust_store.py:531-549 | no kept record goes, and the table shrinks exactly to the capacity or the kept records |
| RecordStore.ReplacedIsExact | aiosendspin/noise/trust_store.py:496-516 | the new record is in, no protected one is out, the server's others are gone, and the exact count |
| RecordStore.ReplacedEvictsLeastRecentlyUsed | aiosendspin/noise/trust_store.py:496-549 | evictions by a pairing are exactly the least recently used unprotected records |
| RecordStore.ReplacedIsNewest | aiosendspin/noise/trust_store.py:727-729 | the server's newest record is then the new one |
| RecordStore.SupersededIsExact | aiosendspin/noise/trust_store.py:518-529 | what stays is the newest record of each server and the protected ones |
| RecordStore.FitsIff | aiosendspin/noise/trust_store.py:496-516 | the store ends within its capacity exactly when the new and the protected records fit |
| RecordStore.ConnectionSlots.ClaimConnectionSlot | aiosendspin/client/client.py:939-948 | a slot is claimed exactly while fewer than capacity minus one are held |
| RecordStore.ConnectionSlots.BeginDial | aiosendspin/client/client.py:829-838 | dialing fails without a slot |
| RecordStore.ConnectionSlots.BeginAccept | aiosendspin/client/client.py:874-876 | an incoming connection is provisional even without one |
| RecordStore.ConnectionSlots.Finish | aiosendspin/client/client.py:950-954 | the slot stays only while connected |
| RecordStore.ConnectionSlots.OnConnectionClosed | aiosendspin/client/client.py:1051-1054 | the slot is free |
| RecordStore.SlotsBounded | aiosendspin/client/client.py:939-954 | over every run at most capacity minus one slots are held |
| RecordStore.SlotIff | aiosendspin/client/client.py:939-954 | over every run a connection has a slot exactly from a dial or accept that found one free until it closes or is not admitted |
| RecordStore.ProvisionalIff | aiosendspin/client/client.py:939-954 | it is provisional exactly from an accept, or such a dial, until its admission ends or it closes |
| RecordStore.ProtectedIff | aiosendspin/client/client.py:931-937 | just those records are protected that a connection, in a slot or over the limit, uses in its session or its handshake |
| RecordStore.UsedRecordsSurvive | aiosendspin/noise/trust_store.py:496-549 | no pairing takes such a record away |
| RecordStore.UsedRecordsNotSuperseded | aiosendspin/client/client.py:1051-1058 | nor does clearing superseded records |
| RecordStore.AllowedIff | aiosendspin/client/connection.py:240-251 | which activities a session allows |
| RecordStore.PairingBacksNothing | aiosendspin/client/connection.py:240-251 | the connection a pairing runs on backs no record itself |
| RecordStore.PairingFitsIff | aiosendspin/client/client.py:931-937 | a completing pairing ends within the capacity exactly when the other connections back fewer stored records than that |
| RecordStore.PairingFits | aiosendspin/client/client.py:931-948 | over every run, with one record a connection and at most one connection over the limit, it does |
| RecordStore.OneEachFitsIff | aiosendspin/client/client.py:931-948 | when each other connection backs a stored record of its own, exactly when slots and connections over the limit do not exceed the capacity |
| RecordStore.CrowdFillsSlots | aiosendspin/client/client.py:874-876 | accepts fill the slots, and whoever comes later is tracked over the limit |
| RecordStore.CrowdOverflows | aiosendspin/client/client.py:875-948 | for every capacity, a run of accepts after which a pairing leaves a full store one record too large, with two connections over the limit |
| PairingRounds.RoundStore.RecordPairingRound | aiosendspin/noise/trust_store.py:797-801 | one more round |
| PairingRounds.RoundStore.ResetPairingRounds | aiosendspin/noise/trust_store.py:803-807 | none |
| PairingRounds.RoundStore.RunRounds | aiosendspin/noise/pairing.py:355-370 | the client loop: it ends, within the budget left, at the first verified round or at the limit |
| PairingRounds.RoundsBounded | aiosendspin/client/connection.py:755-786 | over any number of attempts, abandoned anywhere, at most nineteen rounds more than concurrent attempts between resets |
| PairingRounds.TwentyRounds | aiosendspin/client/connection.py:755-786 | with one attempt at a time at most twenty |
| PairingRounds.CountIsExact | aiosendspin/noise/trust_store.py:797-807 | the stored count is the rounds since the last reset, and before any reset the loaded ones too |
| PairingRounds.NextRoundIff | aiosendspin/client/connection.py:755-786 | a new attempt, or one whose code failed, may run its next round exactly while fewer than twenty count; at the limit a new one may once admitted |
| PairingWindow.PairingWindowState.OpenPairingWindow | aiosendspin/client/client.py:591-600 | opening is a no-op while open, and starts afresh otherwise |
| PairingWindow.PairingWindowState.ClaimPairingWindow | aiosendspin/client/client.py:557-562 | binds an open window to one connection |
| PairingWindow.PairingWindowState.RecordAttempt | aiosendspin/client/client.py:564-579 | a pairing or the fifth failure closes it |
| PairingWindow.PairingWindowState.ClosePairingWindow | aiosendspin/client/client.py:581-589 | closed, unbound, no failures |
| PairingWindow.WindowsBounded | aiosendspin/client/client.py:525-600 | over every run each window serves one connection and records at most five failures |
| PairingWindow.ClosedWindowsStayClosed | aiosendspin/client/client.py:564-600 | over every run nothing is admitted or recorded under a window after a pairing, a fifth failure, an operator or its five minutes closed it |
| PairingWindow.OpenWindowAdmits | aiosendspin/client/client.py:532-562 | until then it admits any connection, and once bound that one |
| PairingFinalize.StepKeepsSound | aiosendspin/noise/pairing.py:721-826 | every step of either side and of the channel keeps acks, keys and attempts in step |
| PairingFinalize.PersistedWasStored | aiosendspin/noise/pairing.py:721-826 | over every interleaving, supersession, stop and loss, a key the client persisted had been stored by the server |
| PairingFinalize.InterruptedAnywhere | aiosendspin/noise/pairing.py:764-780 | either side may stop, and a new attempt begin, at any point of any run; a commit under way ends first |
| PairingFinalize.AttemptCompletes | aiosendspin/noise/pairing.py:721-826 | after any history, with leftovers of superseded attempts in flight, an undisturbed attempt has boundedly many steps however they interleave, and when none is left its key is stored and persisted |
| SourceStream.SourceGate.ApplyStart | aiosendspin/client/connection.py:1887-1898 | when a server start takes effect |
| SourceStream.SourceGate.ApplyStop | aiosendspin/client/connection.py:1899-1905 | when a stop does, and whether it awaits the end |
| SourceStream.SourceGate.DropRole | aiosendspin/client/connection.py:622-634 | removing the role |
| SourceStream.SourceGate.UpdateAvailable | aiosendspin/client/connection.py:1176-1181 | reporting unavailability |
| SourceStream.SourceGate.EnterStart | aiosendspin/client/connection.py:1263-1270 | the checks of a start under the lock |
| SourceStream.SourceGate.StartSent | aiosendspin/client/connection.py:1271-1273 | the flags once it is sent |
| SourceStream.SourceGate.EnterEnd | aiosendspin/client/connection.py:1277-1284 | the checks of an end under the lock |
| SourceStream.SourceGate.EndSent | aiosendspin/client/connection.py:1285-1286 | the flag once it is sent |
| SourceStream.SourceGate.Release | aiosendspin/client/connection.py:1057-1078 | the flags a disconnect resets |
| SourceStream.StepKeepsSound | aiosendspin/client/connection.py:1237-1293 | every step of every task keeps the stream sound |
| SourceStream.StreamSafeOverRuns | aiosendspin/client/connection.py:1237-1293 | under every interleaving starts and ends alternate, chunks only in between, each start has its own server start, and pending and open exclude each other |
| SourceStream.FramesWereClear | aiosendspin/client/connection.py:1237-1293 | under every interleaving each start on the wire was begun connected, in role, authorized, synchronized and outside any exchange, each chunk and end on an open stream |
| SourceStream.ClearSends | aiosendspin/client/connection.py:1237-1293 | and whoever takes the lock while the client is so does send |
| SourceStream.StartsWereServable | aiosendspin/client/connection.py:1887-1898 | each start took a server start that found the client able to stream and not doing so |
| SourceStream.SoundFromStart | aiosendspin/client/connection.py:1237-1293 | in particular from a new connection on |
| SourceStream.FieldsChange | aiosendspin/client/connection.py:1057-1293 | field by field, which steps change it and that no other task does: how long a stream is open and an authorization stands, when a report of unavailability takes effect, which failed end costs the connection |
| SourceStream.CallsWait | aiosendspin/client/connection.py:1237-1293 | a call waits until it has the send lock, or it is the reader's and the reader ends |
| SourceStream.ReaderAwaits | aiosendspin/client/connection.py:1887-1905 | while it waits for a stream to end the reader takes no command |
| SourceStream.ConcludedEndLeavesQuiet | aiosendspin/client/connection.py:1275-1286 | whoever awaited the end finds no stream open or opening |
| SourceStream.AtOnceLeavesQuietIff | aiosendspin/client/connection.py:1176-1181 | a stop, role removal or unavailability that ends at once leaves none exactly when no start was in flight |
| SourceStream.StopAwaitsAuthorizedStart | aiosendspin/client/connection.py:1899-1905 | a stop does await a start in flight while its authorization stands |
| SourceStream.StartingReached | aiosendspin/client/connection.py:1237-1273 | a granted start reaches the middle of its send |
| SourceStream.RevokedStartOpens | aiosendspin/client/connection.py:622-634 | a revoked start in flight opens its stream past a role removal and a stop |
| Artwork.AnnounceRoundTrip | aiosendspin/models/artwork.py:49-82 | unpacking a packed announce gives it back, for every channel, timestamp and size |
| Artwork.AnnounceUnique | aiosendspin/models/artwork.py:69-82 | nothing else unpacks to it |
| Artwork.PackParts | aiosendspin/models/artwork.py:56-61 | the parts are well formed and within the size cap |
| Artwork.PartsAreImage | aiosendspin/models/artwork.py:56-61 | they are parts of the channel, none empty, and joined they are the image |
| Artwork.WellFormedIff | aiosendspin/client/connection.py:214-228 | the messages not refused as malformed are exactly those the sending side packs |
| Artwork.AnnounceLayout | aiosendspin/models/artwork.py:49-66 | which bytes an announce is |
| Artwork.EncodeFour | aiosendspin/models/artwork.py:49-66 | fields are big-endian |
| Artwork.StepKeepsSound | aiosendspin/client/connection.py:1931-2011 | at most one transfer is in flight, short of its total; every other pending image is complete |
| Artwork.ImageArrives | aiosendspin/client/connection.py:1931-1996 | any image sent as announce and parts arrives byte for byte, shown at once when due, with timers and cancels of other channels, availability reports and streams that keep the channel anywhere in between |
| Artwork.PackedArrives | aiosendspin/client/connection.py:1931-1996 | in particular what the sending side packs arrives when nothing comes in between |
| Artwork.TransferEnds | aiosendspin/client/connection.py:1938-1987 | whatever outages come and go, a transfer ends without closing the connection, so that the next may begin; an empty image takes effect even in one |
| Artwork.AvailabilityFollows | aiosendspin/client/connection.py:1943-1978 | over every run availability is what was last reported |
| Artwork.ClosesIff | aiosendspin/client/connection.py:1931-1969 | exactly which messages close the connection: malformed ones, and in a stream an announce during a transfer, a part of none, a part past the announced size |
| Artwork.EndClears | aiosendspin/client/connection.py:1740-1745 | a stream's end tells the listeners, once each and in order, that every shown channel is clear |
| Artwork.QuietBetweenStreams | aiosendspin/client/connection.py:1536-1564 | over every run that starts no stream after that they are told nothing |
| Artwork.HarmlessKeepsReceiving | aiosendspin/client/connection.py:1654-1661 | none of those disturbs the transfer |
| Artwork.StepKeepsDoomed | aiosendspin/client/connection.py:1931-2011 | no step but a new announce shows an image that is to be dropped |
| Artwork.UnavailableNeverShown | aiosendspin/client/connection.py:1943-1978 | over every run after a byte was announced or received while unavailable, the channel shows no image before it is announced another |
| Artwork.DroppedNeverShown | aiosendspin/client/connection.py:1935-1937 | nor over every run after a cancel, the end of the stream or a changed configuration of the channel |
| Artwork.ArtworkReceiver.HandleBinary | aiosendspin/client/connection.py:1536-1564 | malformed messages close the connection even without a stream; the others are dispatched |
| Artwork.ArtworkReceiver.HandleAnnounce | aiosendspin/client/connection.py:1938-1954 | a new transfer |
| Artwork.ArtworkReceiver.HandlePart | aiosendspin/client/connection.py:1953-1969 | its next bytes |
| Artwork.ArtworkReceiver.SettleTransfer | aiosendspin/client/connection.py:1970-1987 | a complete image is dropped, shown or timed |
| Artwork.ArtworkReceiver.ShowArtwork | aiosendspin/client/connection.py:1989-1996 | the listeners get the image |
| Artwork.ArtworkReceiver.StartStream | aiosendspin/client/connection.py:1654-1661 | a new configuration drops the pending images of the channels it changes |
| Artwork.ArtworkReceiver.EndStream | aiosendspin/client/connection.py:1740-1745 | the stream's end drops every pending image and clears every shown channel |
| Artwork.ArtworkReceiver.DiscardPending | aiosendspin/client/connection.py:1998-2004 | nothing pending, nothing in flight on the channel |
| PcmFraming.PcmPassthrough.Process | aiosendspin/audio/codecs.py:107-132 | the frames, their durations and the whole new state |
| PcmFraming.PcmPassthrough.Cut | aiosendspin/audio/codecs.py:122-130 | the loop |
| PcmFraming.PcmPassthrough.Flush | aiosendspin/audio/codecs.py:134-147 | the padded last frame, and an idle encoder |
| PcmFraming.FlushSendsRest | aiosendspin/audio/codecs.py:134-147 | with a flush all input goes out, in full frames, padded with less than a frame of zeros |
| PcmFraming.FramesAreInput | aiosendspin/audio/codecs.py:107-132 | full frames plus the buffer are the input, byte for byte |
| PcmFraming.FramesSplit | aiosendspin/audio/codecs.py:107-132 | cutting does not depend on where the input is split |
| PcmFraming.FramingIndependentOfSplit | aiosendspin/audio/codecs.py:107-132 | over every run the frames are those of the joined input |
| PcmFraming.DurationsExact | aiosendspin/audio/codecs.py:125-126 | the residue carries exactly |
| PcmFraming.TimelineExact | aiosendspin/audio/codecs.py:107-132 | without a gap, n frames last the whole microseconds of n frames, and the pending timestamp follows |
| PcmFraming.GapRestarts | aiosendspin/audio/codecs.py:110-115 | after a larger gap the timeline starts anew |
| SourceCapture.SourceCapture.Feed | aiosendspin/client/source.py:109-142 | what is queued, encoded and sent, and what is too old |
| SourceCapture.SourceCapture.SendFrames | aiosendspin/client/source.py:169-179 | the loop over encoded frames |
| SourceCapture.SourceCapture.ConsumeSamples | aiosendspin/client/source.py:186-194 | the loop over queued spans |
| SourceCapture.ConsumedIsNext | aiosendspin/client/source.py:186-194 | consuming a frame leaves exactly the spans of the next |
| SourceCapture.FramesStamped | aiosendspin/client/source.py:169-184 | a run of frames is stamped from the head of the queue; the fallback is never taken |
| SourceCapture.RunFaithful | aiosendspin/client/source.py:109-194 | over every run queue, buffer and stamps are determined by the chunks taken |
| SourceCapture.CaptureTimesAccurate | aiosendspin/client/source.py:169-194 | a capture time is never late, and early by less than a microsecond per frame boundary passed in its chunk |
| SourceCapture.SpansMatchBuffer | aiosendspin/client/source.py:109-194 | queued span samples always equal the samples buffered in the encoder |
| CaptureSends.TakesWhatIsInTime | aiosendspin/client/source.py:127-136 | over every run just the PCM that ended within half a second of its feed is taken, and all of it is encoded |
| CaptureSends.SendsAllButOld | aiosendspin/client/source.py:169-180 | every feed sends the frames it completes with their stamps, but for those stamped more than half a second ago |
| SourceCapture.FlushStamped | aiosendspin/client/source.py:144-167 | a flushed frame is stamped like any other |
| EncodedTimeline.EncoderTimeline.Feed | aiosendspin/audio/codecs.py:299-311 | an input starts the timeline, anew after a large gap |
| EncodedTimeline.EncoderTimeline.Encode | aiosendspin/audio/codecs.py:317-334 | a chunk's packet anchors the timeline and has a duration |
| EncodedTimeline.EncoderTimeline.FlushChunk | aiosendspin/audio/codecs.py:337-356 | a flushed packet counts without an anchor |
| EncodedTimeline.PendingFollowsDurations | aiosendspin/audio/codecs.py:225-233 | once anchored the multiplied-out pending timestamp is the anchor plus all emitted durations |
| EncodedTimeline.UnanchoredPendingIff | aiosendspin/audio/codecs.py:435-445 | before that, exactly when it follows them |
| EncodedTimeline.FlushLeavesPendingBehind | aiosendspin/audio/codecs.py:337-356 | a flush before the first chunk is a run in which it does not |
| EncodedTimeline.AnchorStays | aiosendspin/audio/codecs.py:531-541 | the anchor accounts for the chunks held back, and stays until a large gap |
| EncodedTimeline.TimelineOf | aiosendspin/audio/codecs.py:294-335 | over every run: which input begins a timeline, that the first packet of a chunk and nothing else anchors it, where, and how many durations there are |
| Flac.Crc8Table | aiosendspin/audio/codecs.py:628-635 | every entry is its index times x^8 modulo the polynomial |
| Flac.TableCrc | aiosendspin/audio/codecs.py:712-714 | the table-driven CRC is the remainder of polynomial division, bit by bit |
| Flac.CrcDivides | aiosendspin/audio/codecs.py:712-715 | a header with its CRC byte is divisible by the polynomial, and with no other |
| Flac.HeaderBlocksize | aiosendspin/audio/codecs.py:683-715 | the block size of an acceptable header, 0 otherwise |
| FlacHeaders.CountedIff | aiosendspin/audio/codecs.py:683-715 | an offset counts exactly when a header with an acceptable block and sample size is written there, for just its block size |
| FlacHeaders.WrittenIsHeader | aiosendspin/audio/codecs.py:683-715 | every header written from its fields is read as them |
| FlacHeaders.HeaderIsWritten | aiosendspin/audio/codecs.py:683-715 | and whatever is read as a header is what its fields are written as |
| FlacHeaders.CandidateIff | aiosendspin/audio/codecs.py:647-653 | a sync code is exactly the start of a header that could be written |
| FlacHeaders.CandidatesAre | aiosendspin/audio/codecs.py:671-675 | each of them counts once against the limit |
| Flac.NumberIsCoded | aiosendspin/audio/codecs.py:690-694 | the continuation bytes of the coded number |
| Flac.CrcMatches | aiosendspin/audio/codecs.py:712-715 | the CRC check accepts exactly divisible headers |
| Flac.ChunkSamples | aiosendspin/audio/codecs.py:658-680 | within the limit the result is the sum over all offsets; it is past the limit exactly when that sum or the sync codes are |
| Flac.NoSplitDecodesMore | aiosendspin/audio/codecs.py:658-680 | no choice of frame starts decodes to more than the sum |
| Flac.TotalIsReached | aiosendspin/audio/codecs.py:658-680 | and the sum is what frames at all offsets together would hold |

## Left out

- BufferTracker.BufferTracker.SetOutputDelay: takes non-negative delays only, because both callers pass the clamped `get_output_delay_us` (aiosendspin/server/roles/player/v1.py:522-524), and chunks past their end time are forgotten, which is right only under those.
- TimeFilter.SendspinTimeFilter.Update: exact reals instead of floating point, because rounding is not the point of the filter.
- SourceBridge.SkewFollows: `int(duration_us * 0.05)` is a twentieth rounded down, because floating point is not modelled.
- SourceStream.StreamSafeOverRuns: a send that fails puts nothing on the wire and no send is cancelled halfway, because what is on the wire would then depend on the socket.
- SourceCapture.SourceCapture.Feed: the PCM encoder only, and every send succeeds, because what another encoder holds back is up to its codec.
- SourceCapture.SourceCapture.SendFrames: without the lookahead subtraction, because PCM has no lookahead.
- SourceCapture.CaptureTimesAccurate: PCM only, and no send raises halfway through a feed, because the frames lost then depend on the connection.
- PcmFraming.PcmPassthrough.Process: needs a positive chunk size, because the source's loop does not end on empty frames.
- PairingRounds.RoundsBounded: starts from a stored count of at most twenty, because a larger or negative one comes only from a damaged file.
- PairingFinalize.PersistedWasStored: the PAKE rounds, the legacy finalize without a `client/pair-init` and the record fields other than the key are not modelled.
- RecordStore.ClientPairingStore.ReplaceRecordForServerId: each call on a store runs to its end, because interleaved calls on one store would depend on the file lock.
- Sockets, discovery, image encoding, file writes and logging are input and output.
- The Noise, CPace, X25519 and AEAD libraries, PyAV, soxr and numpy are opaque: their results are parameters.
- Text is its UTF-8 bytes; whether bytes decode is a parameter.
- The sleeping `wait_for_capacity` of the buffer tracker.
- The window counters of `SourceBridge` that are only logged, and the continuously corrected `AsrcSourceBridge`.
- Starting and stopping `SourceCapture`, which only call the connection.
- FLAC and Opus bit streams: only the timeline of their encoders is modelled.
- Which of two servers' connections is admitted: a small decision table.
- JSON models, aliases of earlier drafts, and the visualizer.
- Server files beyond the ones cited are not part of this model.
