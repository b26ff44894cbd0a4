# FMTP channel: a Dafny model with proofs

The repository implements the Flight Message Transfer Protocol (EUROCONTROL-SPEC-0100, FMTP Edition 2.0) together with
the processes around it: a supervisor that starts and stops one channel process per connection, a queue towards the
OLDI provider, and a log writer that moves log records from a Redis stream to an Oracle database. This project models
four parts of it and proves what they promise:

* **The association.** One controller: its state tables, its enter and exit functions, its three timers and its send
  queue, as a class (`state_machine.dfy`, `state_controller.dfy`) proved against a table of net effects
  (`association.dfy`, `event_laws.dfy`, `single_controller.dfy`). Two peers over two FIFO links (`peers.dfy`) under
  four disciplines: any scheduling at all, with disconnects, commands and timeouts (`identification.dfy`,
  `mirrored_names.dfy`, `wire.dfy`, `peer_laws.dfy`); any scheduling of peers that are left to associate (`gated.dfy`,
  `lost_messages.dfy`, `liveness.dfy`, `in_time.dfy`, `stall.dfy`); prompt peers (`prompt.dfy`, `handshake_run.dfy`);
  and prompt peers in time with a bounded link delay (`keep_alive.dfy`, `keep_alive_exact.dfy`,
  `channel_settings.dfy`).
* **The frame codec and the receive loop** (`fmtp_messages.dfy`, `fmtp_package.dfy`, `receive_loop.dfy`,
  `split_frames.dfy`, `stream_cuts.dfy`). Go strings are sequences of bytes, the 16-bit length arithmetic wraps, and a
  short read leaves zeros.
* **Channel supervision** (`supervision.dfy`, `delayed_starts.dfy`, and the supervisor as a class in
  `chief_channel_server.dfy`).
* **The log pipeline and the OLDI queue.** The record codec (`log_codec.dfy`), the stream reader and the whole pipeline
  (`log_pipeline.dfy`, `log_liveness.dfy`, `log_starvation.dfy`, class in `redis_cntrl.dfy`), the one-query-in-flight
  dispatcher (`dispatch.dfy`, class in `ora_cntrl.dfy`) and the expiring queue (`oldi_queue.dfy`, class over its
  backing array in `fmtp_grpc_server.dfy`).

Where the source updates an object step by step the model does too, and each method states its whole new state through
functions of the old one; the theorems are about those functions. Times are integers that the caller passes in;
failures of the network, of Redis and of Oracle are inputs that may take any value.

The functions a method is proved against are themselves held to laws that do not use them: packets and headers byte by
byte (`FmtpPackage.PacketLayout`, `FmtpPackage.HeaderLayout`), the effect of every kind of event in every state
(`EventLaws`), user data from the one user to the other (`PeerLaws.DataIsConserved`), and the limits and intervals as
numbers: 10 seconds for a channel state, 30 seconds and 1000 messages for the OLDI queue, 100 logs to a batch, a count
check with every 1001st reception, and the ranges of the settings.

Some properties that one would expect are false of the source. Each is stated with the exact condition under which it
holds, and with a run or an input for which it fails:

* Peers that are left to associate need not come to DataReady, and data may do nothing for the association: it reaches
  the user in any state (`PeerLaws.DataIsConserved`), but keeps the connection alive in DataReady only. In a fair run
  both come to DataReady exactly if the client takes its after-send event before it receives the server's
  identification and each side takes its LStartup before it receives the last STARTUP written to it
  (`InTime.ReadyIffInTime`), and a data frame is accepted exactly if its receiver did the latter
  (`InTime.DataIsTakenIffInTime`). Prompt peers always do (`InTime.PromptIsInTime`); messages read in one chunk may be
  received too early. Module `Stall` has a run for each way to fail: the identification lost, one side left behind and
  data ignored by it, both sides waiting.
* The settings check Ts < Tr protects the keep-alive only without delay. With link delays up to D the exact condition
  is Ts + 2D < Tr in both directions (`KeepAliveExact.KeepAliveIff`, `ChannelSettings.CheckIgnoresDelay`).
* The receive loop does not put cut frames together. A stream of packets read in any chunks arrives, every message and
  nothing else, exactly if each cut inside a packet is harmless: what was read reaches into the body, the body behind
  it is zero, and the next chunk holds nothing behind that packet or a multiple of five bytes of it
  (`StreamCuts.StreamArrivesIff`). Otherwise messages are damaged or lost, also uncut ones behind the cut
  (`ReceiveLoop.SplitFrameIsNotRepaired`, `StreamCuts.MessageBehindCutIsLost`). A frame longer than one read of the
  transport, 1024 bytes at the client and 8192 at the server, is always cut (`StreamCuts.LongFrameIsDamaged`).
* Two peers may identify each other without naming each other: both called "X-X" with "X" as their remote, they
  associate (`MirroredNames.UnmirroredSitesAssociate`). Every server with which a client of given names gets past
  identification has the mirrored names exactly if the text the client expects, with a hyphen behind it, is not one
  part of itself repeated, but for two equal halves when both names have the same length
  (`MirroredNames.ConnectionPinsMirrorIff`). As for acceptance by one side alone: no configuration but the mirrored one
  expects its text exactly if neither of its names has a hyphen (`FmtpMessages.IdentificationIsUniqueIff`).
* Updates of the settings may overlap with the delayed starts of earlier ones. Nothing runs but the working records,
  each once, exactly if every start finds records that work and do not run yet (`DelayedStarts.ScheduleIsTidyIff`); of
  two updates the second must neither switch off nor change a channel that the first is about to start
  (`DelayedStarts.OverlapReconcilesIff`). Else a channel that is switched off is started, or one runs twice and the
  first of its processes can not be stopped (`SwitchedOffChannelIsStarted`, `ChangedChannelRunsTwice`).
* A record is handed over twice exactly if a deletion is refused and the read that follows in the same request meets it
  again (`LogPipeline.ExactlyOnceIff`, `LogPipeline.RecordIsHandedOverTwice`).
* Logs may wait in the dispatcher for ever. In a run to which records keep being appended, and in which the database
  stays connected, requests are served and batches delivered, all are dispatched exactly if answers keep coming that
  find nothing queued (`LogStarvation.AllDispatchedIff`); after the last such answer at most one more batch leaves. A
  ping before each answer queues a heartbeat, which goes first, and in such a run no record is ever dispatched
  (`LogStarvation.PingsCanStarveLogs`).
* The discipline of one query in flight is kept exactly if the database is changed only between queries
  (`Dispatch.RunKeepsInvIff`, `Dispatch.TwoQueriesInFlight`).

Two smaller findings: every OLDI message from a channel is dropped by the next clean-up if it is not taken before,
since the supervisor gives it no receive time (`OldiQueue.UnstampedAreAllDropped`); and a log record with a comma in a
text field is refused by its reader and so never stored (`LogPipeline.LoggedRecordIsParsed`).

`dafny verify dfyconfig.toml` verifies the project.

## Model

| member | source | states |
|---|---|---|
| FmtpMessages.IdentificationIsNotAnAnswer | channel/fmtp_states/state_controller.go:192-209 | no identification text can be taken for ACCEPT or REJECT |
| FmtpMessages.IdentificationAgreement | fmtp/fmtp_messages.go:65-71 | for hyphen-free names one side's own text is the other's expected text iff their names are mirrored |
| FmtpMessages.IdentificationIsUniqueIff | fmtp/fmtp_messages.go:65-71 | acceptance by one side: for a given configuration only the mirrored one expects its text iff neither of its names has a hyphen |
| FmtpMessages.HyphenatedNamesCollide | fmtp/fmtp_messages.go:65-71 | acceptance by one side, one input: "A-B" to "C" sends what "B-C" expects from "A" |
| FmtpMessages.FixedTexts | fmtp/fmtp_messages.go:54-71 | the texts and type numbers of the five fixed messages, and the join of two names in an identification, as text |
| FmtpPackage.HeaderRoundTrip | fmtp/fmtp_package.go:30-36 | for every text: the header read back is valid iff the type is 1..5 and the length modulo 2^16 is 1..65524; type and reduced length are recovered |
| FmtpPackage.HeaderCodec | fmtp/fmtp_package.go:72-87 | below 65536 bytes: valid iff type 1..5 and length 1..65524, and then type and body length are exact |
| FmtpPackage.PacketLayout | fmtp/fmtp_package.go:30-69 | the packet of every message byte by byte: 2, 0, the packet length as a big-endian number (exact up to 65530 bytes of text, modulo 65536 beyond), the type, the text |
| FmtpPackage.HeaderLayout | fmtp/fmtp_package.go:72-87 | any five bytes are a valid header iff they are 2, 0, a big-endian number strictly between 5 and 65530, and a type of 1 to 5; the body length is that number less 5 |
| FmtpPackage.ControlPackets | fmtp/fmtp_messages.go:54-61 | the bytes of STARTUP, SHUTDOWN, HEARTBEAT, ACCEPT and REJECT on the wire |
| ReceiveLoop.DrainPackets | channel/fmtp_states/state_controller.go:114-141 | the packets of any list of sendable messages, a fragment behind them or not, are handed over as that list |
| ReceiveLoop.FramingTheorem | channel/fmtp_states/state_controller.go:114-141 | every frame-aligned cut of a message list into chunks is handed over as exactly that list, in order |
| ReceiveLoop.ArbitraryBytes | channel/fmtp_states/state_controller.go:116-141 | whatever the bytes, the list handed over is the one list they spell out: each message behind its own valid header, all but the last exact slices, headers, bodies, skipped groups and tail covering the chunk |
| SplitFrames.FirstPartIsZeroFilled | channel/fmtp_states/state_controller.go:117-124 | the first part of a packet, wherever it is cut, gives nothing without a byte of the body, else the message zero-filled |
| SplitFrames.SplitFrameArrivesIff | channel/fmtp_states/state_controller.go:114-141 | a packet alone in its chunks: however it is cut, the message and nothing else is handed over iff the first part reaches into the body and the body behind it is zero |
| SplitFrames.CutStreamLoses | channel/fmtp_states/state_controller.go:114-141 | a stream of packets without its first bytes, read in whatever chunks, never gives all its messages |
| StreamCuts.StreamArrivesIff | channel/fmtp_states/state_controller.go:114-141 | for every list of sendable messages and every cut of their packets into chunks: exactly these are handed over iff each cut inside a packet reaches into the body, has zeros behind it, and is followed by a chunk that ends with the packet or holds a multiple of five bytes of it |
| StreamCuts.CutPacketArrivesIff | channel/fmtp_states/state_controller.go:114-141 | one packet cut in two, whole ones behind it in the second chunk: all arrive iff the cut reaches into the body, the body behind it is zero, and nothing follows or a multiple of five bytes is left |
| StreamCuts.MessageBehindCutIsLost | channel/fmtp_states/state_controller.go:114-141 | one input: the body 7, 0 cut in the middle arrives, and the uncut message behind it is lost |
| StreamCuts.LongFrameIsDamaged | channel/tcp_transport/tcp_transport_client.go:158-168 | a packet longer than one read, anywhere in a stream, has its body cut: if all messages arrive, it is zero behind the first read |
| ReceiveLoop.SplitFrameIsNotRepaired | channel/fmtp_states/state_controller.go:122-124 | one input: the body 7, 7 cut in the middle is handed over as 7, 0 |
| StateMachine.CommonStateMachine | fmtp/fmtp_state_machine.go:7-21 | the shared rows hold exactly the transitions of the table for both roles, the given rows are kept |
| StateMachine.ClientStateMachine | fmtp/fmtp_state_machine.go:27-38 | the client's own rows hold exactly the client's transitions |
| StateMachine.ServerStateMachine | fmtp/fmtp_state_machine.go:39-51 | the server's own rows hold exactly the server's transitions |
| StateMachine.InitStateMachine | fmtp/fmtp_state_machine.go:24-55 | the machine built for a role lists exactly the transitions of its table |
| StateMachine.GetNextState | fmtp/fmtp_state_machine.go:58-69 | the search answers a listed successor, or none iff none is listed, in whatever order the map is ranged over |
| StateMachine.AnswerIsNextState | fmtp/fmtp_state_machine.go:58-69 | in a role's machine every possible answer of the search is the same: the range order does not matter |
| StateControllers.StateController.constructor | channel/fmtp_states/state_controller.go:49-78 | a controller starts idle, its timers off, with the machine of its role |
| StateControllers.StateController.ExitState | channel/fmtp_states/states_transition_func_map.go:29-41 | the exit function that the role has for the state is run, or none |
| StateControllers.StateController.EnterState | channel/fmtp_states/states_transition_func_map.go:12-26 | the enter function that the role has for the state is run, or none; Idle asks for a reconnection |
| StateControllers.ExitThenEnter | channel/fmtp_states/state_controller.go:242-250 | exit function, new state and enter function compose to the net effect of the event, self-transitions included |
| StateControllers.StateController.ForceNewEvent | channel/fmtp_states/state_controller.go:234-252 | an event has its net effect on state, timers and send queue, or none if the table ignores it, and asks for one reconnection iff it leads to Idle; a disconnection by the other side always leads to Idle, stops all timers, queues nothing and asks for one |
| StateControllers.StateController.ProcessFmtpMessage | channel/fmtp_states/state_controller.go:188-231 | a message is classified and processed; those of types 3 and 4 stay with the controller, all others go to the user; REJECT while identifying leads to Idle and asks for one reconnection |
| StateControllers.StateController.ReceiveBytes | channel/fmtp_states/state_controller.go:114-141 | the loop terminates, processes the drained messages in order, passes the user's on in order and leaves the buffer empty; the packets of any list of user messages give the user exactly that list |
| StateControllers.StateController.OnExpiry | channel/fmtp_states/state_controller.go:157-166 | a timer that fires is off and its event is processed; Ti while identifying and Tr in DataReady lead to Idle and ask for one reconnection |
| StateControllers.StateController.SendData | channel/fmtp_states/state_controller.go:109-111 | user data is queued in any state, with LData to follow once it is written |
| EventLaws.MessagesStandForEvents | channel/fmtp_states/state_controller.go:188-231 | which event a message of each type number and text stands for |
| EventLaws.UserGetsAll | channel/fmtp_states/state_controller.go:224-230 | a list of messages of other types than 3 and 4 is handed to the user whole and in order |
| EventLaws.UserGetsNone | channel/fmtp_states/state_controller.go:192-223 | messages of types 3 and 4 are not handed to the user |
| EventLaws.UserGetsParts | channel/fmtp_states/state_controller.go:188-231 | mixed lists split: the user gets his share of each part, in order |
| EventLaws.DisconnectionGoesIdle | channel/fmtp_states/state_controller.go:97-98 | from every state a disconnection of either kind leads to Idle with all timers off; SHUTDOWN is queued iff it is a local one in an association |
| EventLaws.IdentificationIsBroken | fmtp/fmtp_state_machine.go:31-50 | while identifying, REJECT, data, HEARTBEAT, SHUTDOWN, STARTUP and Ti lead to Idle with all timers off |
| EventLaws.AcceptanceOutOfTurn | fmtp/fmtp_state_machine.go:31-50 | so does ACCEPT, but for the server that has sent its identification |
| EventLaws.WrongIdentification | channel/fmtp_states/states_transition_funcs.go:62-69 | a wrong identification ends the identification where one is awaited, and the client answers REJECT |
| EventLaws.LocalEventsWhileIdentifying | fmtp/fmtp_state_machine.go:31-50 | local data and commands end the identification of a client and leave a server alone |
| EventLaws.Expiries | channel/fmtp_states/states_transition_funcs.go:94-119 | Ti ends the identification, Tr the association in DataReady, Ts queues HEARTBEAT and restarts; elsewhere they do nothing |
| EventLaws.GoesIdleIff | fmtp/fmtp_state_machine.go:7-55 | these are all the ways to Idle |
| EventLaws.ConnectionIsSetUp | channel/fmtp_states/states_transition_funcs.go:31-54 | the first indications: the client queues its identification, the server starts Ti |
| EventLaws.IdentificationGoesOn | channel/fmtp_states/states_transition_funcs.go:31-76 | the steps of the identification with timers and packets |
| EventLaws.AssociationGoesOn | channel/fmtp_states/states_transition_funcs.go:74-103 | the steps of the association with timers and packets; a STARTUP before its turn does nothing |
| EventLaws.DataAndHeartbeats | channel/fmtp_states/states_transition_funcs.go:110-116 | received data and heartbeats restart Tr, sent data restarts Ts, in DataReady only |
| EventLaws.Shutdowns | channel/fmtp_states/states_transition_funcs.go:86-122 | a local shutdown starts the association anew with SHUTDOWN and STARTUP, one from the other side waits for its STARTUP |
| EventLaws.OutOfPlace | fmtp/fmtp_state_machine.go:8-20 | all other events of an association are ignored; a stale Ti event in AssPending stops Tr |
| EventLaws.IgnoredBefore | fmtp/fmtp_state_machine.go:27-51 | in Idle and while identifying all events that no other law speaks of are ignored |
| SingleController.TimersFollowTheState | channel/fmtp_states/states_transition_funcs.go:31-124 | over every event sequence in either role: Ts runs iff in DataReady, Ti iff waiting for identification, Tr always in DataReady and never outside AssPending and DataReady |
| SingleController.EventsInOrder | fmtp/fmtp_state_machine.go:24-55 | over every event sequence the milestones behind the state reached were accepted in order since the last Idle |
| SingleController.PacketsInOrder | channel/fmtp_states/states_transition_funcs.go:35-124 | without local commands the packets since the last Idle are ID ACCEPT STARTUP (STARTUP HEARTBEAT*)* or ID STARTUP (STARTUP HEARTBEAT*)*, cut off at the state reached |
| MutualIdentification.StepKeepsInv | channel/fmtp_states/states_transition_funcs.go:35-69 | every step of two freely scheduled peers keeps the invariant on who has validated whom and what may be in flight |
| MutualIdentification.Identified | channel/fmtp_states/states_transition_funcs.go:35-69 | under any scheduling, timeouts and disconnects: once either peer is past identification both have validated the other, and each sends what the other expects |
| MutualIdentification.IdentifiedSitesAreMirrored | fmtp/fmtp_messages.go:65-71 | for hyphen-free names such a connection joins mirrored configurations only |
| MirroredNames.PinsMirrorIff | fmtp/fmtp_messages.go:65-71 | for given names: whoever expects their text and sends the text they expect names them as they name it, iff the expected text with a hyphen behind it has no repetition, but for its halves with names of equal length |
| MirroredNames.IdentifiableIff | channel/fmtp_states/states_transition_funcs.go:35-69 | some run gets either peer past identification iff each sends what the other expects |
| MirroredNames.ConnectionPinsMirrorIff | channel/fmtp_states/states_transition_funcs.go:35-69 | so every server with which a given client gets past identification, in any run, has mirrored names iff the client's names have no such repetition |
| MirroredNames.UnmirroredSitesAssociate | fmtp/fmtp_messages.go:65-71 | one input: both sides "X-X" with remote "X" reach AssPending, and neither names the other |
| Wire.StepKeepsInv | channel/fmtp_states/state_controller.go:254-261 | whatever step is taken, every packet queued or written survives the header check, if the identification texts fit into a frame |
| Wire.LinksSurviveFraming | channel/fmtp_states/state_controller.go:114-141 | in every run, any frame-aligned reading of a direction's byte stream gives exactly the messages written to it, in order |
| PeerLaws.IdentificationTexts | channel/fmtp_states/state_controller.go:62-78 | each side introduces itself as local-remote and expects remote-local, by the names and intervals of its own settings |
| PeerLaws.DisconnectedIsIdle | channel/fmtp_states/state_controller.go:97-98 | in every reachable state of two peers a disconnection of either kind leaves its side idle with all timers off |
| PeerLaws.TimedOutIsIdle | channel/fmtp_states/state_controller.go:157-166 | so does Ti while identifying and Tr in DataReady |
| PeerLaws.DataIsConserved | channel/fmtp_states/state_controller.go:109-111 | in every run, under any scheduling and whatever the states: what one user submitted is what the other was handed, what is in flight and what is queued, in order |
| PeerLaws.UserGetsWhatWasSubmitted | channel/fmtp_states/state_controller.go:114-141 | so frame-aligned reads of what was received give the user the first of the texts submitted, in order, and nothing else |
| PromptPeers.StepKeepsInv | channel/fmtp_states/states_transition_funcs.go:52-101 | every prompt step keeps the invariant of the handshake and undoes none of it; a handshake step of a waiting side shortens it |
| PromptPeers.NoDataLost | channel/fmtp_states/states_transition_funcs.go:74-119 | in every reachable state with any number of frames in flight, an Operational or HEARTBEAT frame is received in DataReady and restarts Tr |
| PromptPeers.DataReadyIsKept | fmtp/fmtp_state_machine.go:17-20 | a prompt peer in DataReady stays there |
| GatedPeers.StepKeepsStands | channel/tcp_transport/tcp_transport_client.go:181-189 | every step of peers left to associate, however scheduled, keeps where each side stands and what it writes, and undoes none of the handshake |
| GatedPeers.OtherStepsChangeNothing | fmtp/fmtp_state_machine.go:8-15 | a side short of DataReady is changed by its own handshake steps only; whatever else it receives is lost |
| LostMessages.DoomedLasts | fmtp/fmtp_state_machine.go:8-15 | once a message the handshake needs was received too early, no step completes it |
| Liveness.NoStall | fmtp/fmtp_state_machine.go:7-55 | until both are in DataReady, and unless the handshake is doomed, a handshake step is open and leaves strictly less to do |
| Liveness.HelpfulPersists | fmtp/fmtp_state_machine.go:7-55 | that step stays the same until it is taken or another step has shortened the handshake |
| Liveness.ReadyIffNeverDoomed | fmtp/fmtp_state_machine.go:7-55 | a fair run comes to DataReady on both sides, for good, iff its handshake is never doomed |
| InTime.ReadyIffInTime | channel/tcp_transport/tcp_transport_server.go:201-209 | a fair run, data and heartbeats interleaved, comes to DataReady on both sides, for good, iff the client takes RSetup before it receives the server's identification and each side takes LStartup before it receives the last STARTUP written to it |
| InTime.DataIsTakenIffInTime | channel/fmtp_states/states_transition_funcs.go:74-119 | in any run, fair or not, a received Operational or HEARTBEAT frame is accepted in DataReady and restarts Tr iff its receiver takes LStartup before it receives the last STARTUP written to it |
| InTime.PromptIsInTime | channel/tcp_transport/tcp_transport_client.go:181-189 | peers that write and take all they have before each reception are in time |
| InTime.FairRunsReachDataReady | fmtp/fmtp_state_machine.go:7-55 | so every fair prompt run comes to DataReady on both sides, for good |
| Stall.IdentificationCanBeLost | fmtp/fmtp_state_machine.go:31-33 | a run in which the client receives the server's identification while its RSetup waits |
| Stall.OneSideCanBeLeftBehind | fmtp/fmtp_state_machine.go:8-15 | a run in which the client loses both STARTUPs while the server is in DataReady |
| Stall.DataCanBeIgnored | fmtp/fmtp_state_machine.go:8-15 | it goes on: the server sends any data, and the client hands it to the user and is unchanged, its Tr off |
| Stall.FreeSchedulingCanStall | fmtp/fmtp_state_machine.go:8-15 | a run in which both lose the other's first STARTUP and both wait |
| Stall.StallLasts | fmtp/fmtp_state_machine.go:12-15 | no timeout, write or reception leaves such a stall |
| KeepAlive.OnlyTsIsDue | channel/fmtp_states/states_transition_funcs.go:94-119 | in every state of the timed invariant no timer but Ts is due |
| KeepAlive.StepKeepsTimedInv | channel/fmtp_states/states_transition_funcs.go:94-119 | every timed step is a prompt step and keeps the timed invariant |
| KeepAlive.OnlyTsEverExpires | channel/channel_settings/channel_settings.go:111-113 | if Ts + 2D < Tr both ways and 2D < Ti, no timer but Ts is due in any reachable state: neither peer ever times out |
| KeepAlive.TimeIsNotLocked | channel/fmtp_states/timer.go:24-36 | in every state of the timed invariant a step other than a submission is open: the theorem is not empty |
| KeepAliveExact.TooShortTrCanRunOut | channel/fmtp_states/states_transition_funcs.go:110-119 | if Ts of one side plus 2D reaches Tr of the other, a timed run exists in which Tr runs out in DataReady |
| KeepAliveExact.KeepAliveIff | channel/channel_settings/channel_settings.go:111-113 | Tr never runs out in DataReady iff Ts + 2D < Tr in both directions |
| ChannelSettings.CheckIsKeepAlive | channel/channel_settings/channel_settings.go:91-128 | for paired settings without delay the check of Ts against Tr is exactly the keep-alive condition |
| ChannelSettings.CheckIgnoresDelay | channel/channel_settings/channel_settings.go:111-113 | with a delay, settings that pass the check keep the connection alive iff twice the delay is below Tr - Ts |
| ChannelSettings.CheckFindsFirstBroken | channel/channel_settings/channel_settings.go:91-131 | settings pass iff they break none of eleven rules, stated with their numbers; otherwise the first broken one is reported |
| ChannelSettings.AcceptedSettings | channel/channel_settings/channel_settings.go:111-124 | accepted settings have Ts below Tr and a port strictly between 2000 and 65535 for their role |
| ChannelSettings.SomeSettingsPass | channel/channel_settings/channel_settings.go:91-131 | for every name and Ts there are settings of either role that pass |
| Supervision.UpdateTouchesOnlyChanges | chief_channel/chief_channel_server.go:112-179 | a working record is stopped iff it or the port is not kept, and started iff it or the port is new, whatever the list order |
| Supervision.KeptRecordIsUntouched | chief_channel/chief_channel_server.go:130-179 | a channel whose record and port are unchanged is neither stopped nor started |
| Supervision.StartsFindNothingRunning | chief_channel/chief_channel_server.go:185-194 | no start of an update finds its channel still running after the stops |
| Supervision.UpdateReconciles | chief_channel/chief_channel_server.go:108-194 | an update takes the running channels from the working records of the old settings to those of the new, in contents and port |
| Supervision.AlwaysReconciled | chief_channel/chief_channel_server.go:372-421 | over any sequence of updates the running channels are the working records of the latest settings |
| DelayedStarts.MoveKeepsTidyIff | chief_channel/chief_channel_server.go:184-194 | an update keeps the processes tidy; a delayed start does iff all records it finds work and none of them runs |
| DelayedStarts.ScheduleIsTidyIff | chief_channel/chief_channel_server.go:184-194 | over any schedule of updates and delayed starts: nothing ever runs but the working records of the current settings, each once, iff every start is clean when it is due |
| DelayedStarts.CleanSchedulesReconcile | chief_channel/chief_channel_server.go:392-421 | and then, with no start to come, exactly the working records run |
| DelayedStarts.OverlapReconcilesIff | chief_channel/chief_channel_server.go:188-194 | two updates within the delay of the start reconcile iff the second neither switches off nor changes a channel the first is about to start |
| DelayedStarts.SwitchedOffChannelIsStarted | chief_channel/chief_channel_server.go:392-421 | one input: a channel switched off before its delayed start is started all the same |
| DelayedStarts.ChangedChannelRunsTwice | chief_channel/chief_channel_server.go:392-421 | one input: a channel changed before its delayed start is started twice, and the first process can not be stopped |
| Supervision.InitAllCovers | chief_channel/chief_channel_server.go:594-612 | starting states anew gives exactly the records named a fresh entry and leaves the others alone |
| Supervision.UpdateCovers | chief_channel/chief_channel_server.go:122-161 | after an update every configured channel has a state entry |
| Supervision.UpdateRestarts | chief_channel/chief_channel_server.go:122-161 | an update starts the entries of new and changed records anew, field by field, with a new port those of all, and leaves the others as they are |
| Supervision.UpdateLeavesOthers | chief_channel/chief_channel_server.go:163-178 | it leaves the entries of channels that are gone |
| Supervision.TickRefreshes | chief_channel/chief_channel_server.go:323-336 | a tick starts the entry of a working channel anew iff it is more than 10 seconds old, in error and disabled; so none is older afterwards |
| Supervision.TickLeavesOthers | chief_channel/chief_channel_server.go:323-336 | it leaves all other entries alone, however old, and adds and drops none |
| Supervision.StatesAreKept | chief_channel/chief_channel_server.go:226-236 | over any sequence of updates, heartbeats and ticks every configured channel has an entry, and none of a working one is older than 10 seconds after a tick |
| Supervision.HeartbeatHolds | chief_channel/chief_channel_server.go:226-236 | what a channel reports stays through all ticks of the next 10 seconds |
| Supervision.HeartbeatRunsOut | chief_channel/chief_channel_server.go:323-336 | the first tick after that takes a working channel for failed |
| ChiefChannelServers.ChiefChannelServer.InitAllStates | chief_channel/chief_channel_server.go:122-129 | with a new port every new record has its state started anew and the working ones are to start |
| ChiefChannelServers.ChiefChannelServer.CompareNew | chief_channel/chief_channel_server.go:134-161 | the loop over the new records collects what to stop and start and starts the states of changed records anew |
| ChiefChannelServers.ChiefChannelServer.CompareOld | chief_channel/chief_channel_server.go:163-178 | the loop over the old records collects the working ones that are gone |
| ChiefChannelServers.ChiefChannelServer.TakeSettings | chief_channel/chief_channel_server.go:108-182 | the three branches give the stop list, the start list, the states and the settings kept |
| ChiefChannelServers.ChiefChannelServer.StopChannelsByIDs | chief_channel/chief_channel_server.go:372-389 | the processes reached under these IDs are gone, those whose handle was overwritten go on |
| ChiefChannelServers.ChiefChannelServer.StartChannelsByIDs | chief_channel/chief_channel_server.go:392-421 | each ID found in the current settings is launched with its record and the current port; a process already under the ID goes on without a handle |
| ChiefChannelServers.ChiefChannelServer.UpdateSettings | chief_channel/chief_channel_server.go:108-194 | the supervisor stays reconciled with its settings over an update with its start |
| ChiefChannelServers.ChiefChannelServer.StatesTick | chief_channel/chief_channel_server.go:323-336 | the tick starts the entries of working channels that are more than 10 seconds old anew and keeps all that are not, in whatever order the map is ranged over |
| LogCodec.ItoaRoundTrip | fmtp_log/fmtp_logger_message.go:65 | every 64-bit channel ID, negative ones included, is read back and holds no comma |
| LogCodec.DigitsAreDecimal | fmtp_log/fmtp_logger_message.go:65 | the digits written are decimal, stand for the number, and none is superfluous |
| LogCodec.DecimalIsRead | fmtp_log/fmtp_logger_message.go:82 | a string of digits, with a sign or not, is read as the number it stands for, clamped to 64 bits |
| LogCodec.SplitOfJoin | fmtp_log/fmtp_logger_message.go:75 | splitting undoes joining for fields without commas |
| LogCodec.JoinOfSplit | fmtp_log/fmtp_logger_message.go:80 | joining undoes splitting for every string |
| LogCodec.RecordLayout | fmtp_log/fmtp_logger_message.go:62-76 | the record field by field, in the order written |
| LogCodec.RecordRoundTrip | fmtp_log/fmtp_logger_message.go:62-97 | a record is read back exactly if no field has a comma, and refused otherwise: never another record |
| LogCodec.ReadIsWrittenBack | fmtp_log/fmtp_logger_message.go:78-97 | whatever is read has no comma in a field, and is written as it was read iff its number is written the standard way |
| Dispatch.StepKeepsInvIff | ora_logger/ora_cntrl/ora_cntrl.go:159-192 | a step keeps the discipline (at most one query in flight, free iff none is, free only with nothing queued or buffered, no INSERT and at most one heartbeat queued, batches of 1..100) iff it does not change the database with a query in flight |
| Dispatch.RunKeepsInvIff | ora_logger/ora_cntrl/ora_cntrl.go:137-192 | over every run the discipline holds throughout iff the database changes only between queries |
| Dispatch.TwoQueriesInFlight | ora_logger/ora_cntrl/ora_cntrl.go:196-220 | one run: a database changed with a query in flight, and two queries are in flight |
| Dispatch.StepConserves | ora_logger/ora_cntrl/ora_cntrl.go:264-302 | no step loses, repeats or reorders a log, and without new ones n buffered logs leave in ceil(n/100) batches whatever goes between |
| Dispatch.StepAsks | ora_logger/ora_cntrl/ora_cntrl.go:159-262 | no check or heartbeat is lost or made up: each step adds to those queued or sent just the ones it asks for, a count check with every 1001st reception among them |
| Dispatch.ResultsDrain | ora_logger/ora_cntrl/ora_cntrl.go:171-183 | answers alone empty the queue and the buffer, one per pending query, in exactly that many batches |
| Dispatch.ClosedDisconnects | ora_logger/ora_cntrl/ora_cntrl.go:171-177 | an answer that says the database is gone disconnects the dispatcher and sends nothing |
| Dispatch.FailedConnectDisconnects | ora_logger/ora_cntrl/ora_cntrl.go:196-211 | so does a connection that fails |
| Dispatch.NothingSentDisconnected | ora_logger/ora_cntrl/ora_cntrl.go:264-265 | without a database nothing is sent or asked for, whatever comes in, until it is there again |
| Dispatch.ConnectSends | ora_logger/ora_cntrl/ora_cntrl.go:213-220 | a connection sends one of the queries that wait, or asks for logs |
| Dispatch.HundredLogsAtOnce | ora_logger/ora_cntrl/ora_cntrl.go:267-288 | an answer that finds nothing queued sends the first 100 buffered logs, or all |
| Dispatch.QueriesGoInOrder | ora_logger/ora_cntrl/ora_cntrl.go:28-48 | what is queued goes in the order heartbeats, lifetime checks, count checks, logs |
| Dispatch.PingRequests | ora_logger/ora_cntrl/ora_cntrl.go:249-254 | a ping asks for logs iff the dispatcher is connected with nothing queued or buffered |
| Dispatch.ChecksInNumbers | ora_logger/ora_cntrl/ora_cntrl.go:159-169 | over whole runs: as many count checks as receptions divided by 1001 and changes of the limits |
| OraControllers.PriorityQueue.Get | ora_logger/ora_cntrl/ora_cntrl.go:41-48 | the query taken has the highest priority number and is the only one gone |
| OraControllers.OraCntrlr.CheckQueryQueue | ora_logger/ora_cntrl/ora_cntrl.go:264-302 | the object makes one check of the queue as specified |
| OraControllers.OraCntrlr.CheckHeartbeat | ora_logger/ora_cntrl/ora_cntrl.go:249-262 | a heartbeat, and a request if nothing is buffered, only with nothing queued; then a check |
| OraControllers.OraCntrlr.OnReceive | ora_logger/ora_cntrl/ora_cntrl.go:159-169 | logs are buffered in order, and every 1001st reception queues a count check |
| OraControllers.OraCntrlr.OnResult | ora_logger/ora_cntrl/ora_cntrl.go:171-183 | a result frees the dispatcher, or disconnects it if the database is gone; then a check |
| OraControllers.OraCntrlr.ConnectToDb | ora_logger/ora_cntrl/ora_cntrl.go:196-227 | a connection frees the dispatcher and checks the queue; a failed one leaves it disconnected |
| LogPipeline.StepKeeps | ora_logger/redis_cntrl/redis_cntrl.go:56-72 | every step keeps the stream a suffix of what was appended, the IDs to delete covering what was read of it, and the records handed over flowing to the dispatcher in order |
| LogPipeline.StepAccounts | ora_logger/redis_cntrl/redis_cntrl.go:56-72 | a step accounts for every record exactly once, or for more if it rereads |
| LogPipeline.ExactlyOnceIff | ora_logger/redis_cntrl/redis_cntrl.go:56-130 | over every run the records dispatched, buffered, on their way and unread are the records appended, in order, iff no request whose deletion is refused reads a record it was to delete |
| LogPipeline.RecordIsHandedOverTwice | ora_logger/redis_cntrl/redis_cntrl.go:56-72 | for every record without commas and every count: one read, a refused deletion and another read hand it over twice |
| LogPipeline.NothingLeavesUnread | ora_logger/redis_cntrl/redis_cntrl.go:123-130 | whatever fails, every entry appended is in the stream or was handed over |
| LogPipeline.HandedIsDispatchedInOrder | ora_logger/ora_cntrl/ora_cntrl.go:264-302 | whatever fails, the records handed over are those dispatched, buffered and on their way, in order |
| LogPipeline.LoggedRecordIsParsed | fmtp_log/fmtp_logger_message.go:62-97 | a logged record is parsed from the stream iff it has no comma |
| LogPipeline.RequestInNumbers | ora_logger/redis_cntrl/redis_cntrl.go:56-121 | one request: which entries a deletion leaves, which IDs are forgotten, that the first `count` entries are read, remembered and passed on in one batch |
| LogLiveness.EveryRecordIsDispatched | ora_logger/ora_cntrl/ora_cntrl.go:264-302 | all entries appended by any step are handed over by some step, and all records handed over by then head those dispatched by some step, position by position, if the database stays connected, requests made are served and succeed, batches are delivered, and answers keep coming that find nothing queued |
| LogLiveness.RecordsAreDispatchedInOrder | ora_logger/ora_cntrl/ora_cntrl.go:264-302 | if moreover nothing is reread, the records appended by any step head those dispatched by some step |
| LogLiveness.RequestComes | ora_logger/ora_cntrl/ora_cntrl.go:289-291 | more logs are requested and read again and again: the buffer is sent first, then more are asked for |
| LogLiveness.HeartbeatGoesFirst | ora_logger/ora_cntrl/ora_cntrl.go:249-262 | an answer after a ping sends the heartbeat and leaves any buffered logs waiting |
| LogStarvation.OneMoreBatchAtMost | ora_logger/ora_cntrl/ora_cntrl.go:264-302 | as long as no answer finds nothing queued, at most one more batch leaves |
| LogStarvation.AllDispatchedIff | ora_logger/ora_cntrl/ora_cntrl.go:264-302 | in a run to which records keep being appended, connected and served: every entry is dispatched, as `EveryRecordIsDispatched` says, iff answers keep coming that find nothing queued |
| LogStarvation.PingsCanStarveLogs | ora_logger/ora_cntrl/ora_cntrl.go:249-262 | for every record without commas an infinite run from the start: connected, served, answered, records keep being appended, and none is ever dispatched |
| RedisControllers.RedisCntrl.ReadLogsFromStream | ora_logger/redis_cntrl/redis_cntrl.go:92-121 | the loops give the parseable records of the head of the stream in order and remember all its IDs |
| RedisControllers.RedisCntrl.OnRequest | ora_logger/redis_cntrl/redis_cntrl.go:56-72 | one request deletes, reads and passes on as specified, whichever call fails |
| OldiQueue.CleanDropsExpiredPrefix | chief/oldi/fmtp_grpc_server_impl.go:120-139 | a clean-up drops exactly the longest prefix of messages more than 30 s old |
| OldiQueue.CleanDropsAfter30Seconds | chief/oldi/fmtp_grpc_server_impl.go:120-148 | in numbers: all that leave are at the front and more than 30 seconds old when looked at, the first that stays is not |
| OldiQueue.OrderedTimesAllCleaned | chief/oldi/fmtp_grpc_server_impl.go:122-139 | with receive times in order nothing that stays was expired when the scan stopped |
| OldiQueue.UnstampedAreAllDropped | chief_channel/chief_channel_server.go:270-273 | messages without a receive time are all dropped by the next clean-up |
| OldiQueue.StepConserves | chief/oldi/fmtp_grpc_server_impl.go:69-151 | each append, take and clean-up keeps every message in exactly one of delivered, dropped and queued, all in order |
| OldiQueue.TakesDeliver | chief/oldi/fmtp_grpc_server_impl.go:78-87 | k takes in a row deliver the first 1000 k messages, or all, in order |
| OldiQueue.TakesEmptyIff | chief/oldi/fmtp_grpc_server_impl.go:78-87 | they empty a queue of n messages iff k is at least n / 1000, rounded up |
| OldiQueue.QueueFollowsCalls | chief/oldi/fmtp_grpc_server_impl.go:69-114 | over any interleaving the messages appended are those submitted, and each take gives one batch |
| OldiQueue.QueueConserves | chief/oldi/fmtp_grpc_server_impl.go:69-151 | so over any interleaving; each batch has at most 1000 messages and each dropped message was expired when it was dropped |
| FmtpGrpcServers.FmtpGrpcServer.AppendMsg | chief/oldi/fmtp_grpc_server_impl.go:109-114 | the message is the last of the slice, in place or in a larger backing array |
| FmtpGrpcServers.FmtpGrpcServer.RecvMsg | chief/oldi/fmtp_grpc_server_impl.go:78-87 | a fresh copy of the first 1000 messages, or of all if there are no more, is returned, and exactly these leave the slice |
| FmtpGrpcServers.FmtpGrpcServer.CleanOldMsg | chief/oldi/fmtp_grpc_server_impl.go:116-151 | the messages in front that are more than 30 seconds old are set to nil in place and sliced off, up to the first that is not |
| FmtpGrpcServers.Serve | chief/oldi/fmtp_grpc_server_impl.go:69-151 | after any sequence of calls every batch returned earlier still holds what was delivered, however the backing array was reused, grown or cleared |

## Left out

- ReceiveLoop.FramingTheorem: chunks end at frame boundaries, or inside a header that is then lost, because the loop does not reassemble frames; `StreamCuts.StreamArrivesIff` says which other cuts do no harm. The transport reads at most 1024 bytes (client) or 8192 bytes (server) at once, so a longer frame never comes in one chunk.
- KeepAliveExact.KeepAliveIff: assumes Ts positive and 2D below Ti, because with Ts zero heartbeats never let time pass and with a shorter Ti the identification times out before the keep-alive begins.
- PromptPeers.NoDataLost: prompt peers only; `InTime.DataIsTakenIffInTime` has the exact condition for all others. Both assume no disconnect, no local command, no Ti or Tr timeout and data only in DataReady; the supervisor sends data only to a channel that reported DataReady (chief_channel/chief_channel_server.go:355).
- Supervision.AlwaysReconciled: IDs in one list are distinct, starts and stops succeed, and each delayed start completes before the next update; module `DelayedStarts` treats updates that overlap.
- ChiefChannelServers.ChiefChannelServer.StopChannelsByIDs: the removal of the binary succeeds; where it fails the source keeps the handle of the killed process, and a later stop of the same channel waits for ever.
- OraControllers.OraCntrlr.ConnectToDb: the token that ends the executor is not modelled. A failed connection leaves one in its one-slot channel: a second failed connection then blocks the controller, and the executor of a later one may end at once, so that its query is never answered.
- LogPipeline.ExactlyOnceIff: counts a record as dispatched when its INSERT is handed to the executor; a failing INSERT is not repeated by the source. The stream is not trimmed, and stays on one server.
- Dispatch.ResultsDrain: no new logs and no ticks arrive meanwhile; `Dispatch.StepConserves` and `LogLiveness.EveryRecordIsDispatched` have them interleaved.
- Wire.LinksSurviveFraming: frames longer than one read of the transport (1024 or 8192 bytes) are outside it, although users may submit bodies up to 65524 bytes. It assumes that a local and a remote name joined by the hyphen take at most 65524 bytes, which the source does not check, and reads that end at frame boundaries; the two-peer model carries messages, and frames split across reads are not part of it.
- StateControllers.Timer: races between the goroutines of a timer; start, stop and restart take effect one after the other. A timeout that fired before its timer was restarted is modelled (`Stale`).
- Reconnection: the delay of ReconnectTimeout, and what the send queue and the timers carry from one TCP connection to the next. A run of the two peers is one connection.
- Operator and Status messages between the peers: the supervisor sends Operational messages only. Such messages reach the user without an event, so they do not restart Tr.
- Bounds of the channels: the send queue holds 1024 packets and the after-send event none (channel/tcp_transport/tcp_transport_client.go:43-44). A controller that queues into a full queue while the send loop waits for it to take that event blocks for ever. The model's queue has no bound, so its runs are those in which the queue does not fill up.
- The Disabled state, the Enable and Disable events and FmtpInitState: no table entry leads to them.
- Windows-1251 conversion: texts are taken as they are.
- The priority queue: only that it gives an item of highest priority number and loses none.
- Crashes and automatic restarts of channel processes, two starts at the same moment, Docker, process launch and copying of binaries.
- The rest of the settings check: the field update at its end, and validity of addresses.
- A change of Oracle or Redis settings with calls in flight, beyond what `Dispatch.StepKeepsInvIff` says about it.
- Sockets, gRPC, WebSocket, HTTP, JSON, web pages, settings files, loggers and metrics, among them the number of expired messages that the OLDI server reports.
