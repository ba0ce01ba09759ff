# MediaServo: verified models of the signaling, session and control core

MediaServo streams video from vehicles through an SFU and sends control commands back.  This project
models the parts of it that keep state across messages, tasks and restarts, and proves what they
promise over every run.

| module | what it models |
|---|---|
| `Gateway`, `GatewayRuns` | the host agent's signaling gateway: many child processes share one server session, and replies without a request id are paired with their senders by a FIFO of connection ids |
| `Supervisor` | the client's reconnect supervisor: forwarder generations, dead notices, one-shot resume tickets, capped backoff |
| `Consumer`, `Session` | consumer slots and their replay, the QoE differ, the folding of receiver statistics |
| `FrameStream`, `FrameMeta` | the latest-slot frame stream and the frame metadata codec |
| `Controller`, `CommandGate`, `Emergency` | the vehicle controller's ledger of data producers, the signed-command pipeline, the emergency-stop latch |
| `ConfigPush` | versioned configuration pushes with backups, across restarts |
| `Sdp`, `Lines`, `Decimal` | the synthesized session descriptions and the ssrc injection |
| `Protocol`, `Wrappers`, `Numbers` | the message datatype, `Option`, shared number types |

Objects that the program updates in place (`State`, `UpstreamQueue`, `QoeDiffer`, `ConsumerSlot`,
`ControlLedger`, `StubEmergencyActuator`, `HostDir`) are classes whose methods are proved against
functions on their abstract value.  Concurrent protocols are state machines whose steps are single
critical sections or channel operations; a list of steps is one interleaving, and the results hold for
all legal lists.  Each machine carries history fields (request numbers, presented tickets, deliveries)
that the program never reads and the results are stated in.

## What the environment is assumed to do

- Gateway: the server reads one message at a time and answers each SFU request exactly once with a
  reply-class message (the guard of `ServerTakes`).  That it sends reply-class messages for nothing
  else, and that the event stream does not lag, is not assumed: `AlignmentIsLostExactlyByFaults` says
  that these two faults, and nothing else, break the pairing, and `PromisesRuleOutFaults` that a server
  and a stream that keep the two promises never cause one.
- Gateway rooms: only `AnswerNamesTheDeclaredRoom` and `RunsKeepRooms` assume that the server answers in
  the room it was asked in (`InPlace`).
- Controller: `EventKeepsInv` states the exact promise about `DataConsumed` under which the ledger stays
  right, and `LedgerIsRightIffPromised` the same over runs; `OneAnswerEachIsEnough` derives it from one
  answer per `ConsumeData`.  The gateway hands `DataProducerCreated` to every child
  (crates/mediaservo-host/src/gateway.rs:284-295) and a wait takes the first one it reads: that the answers
  a controller reads during setup are to its own requests is assumed, and makes `CreatedIds` the producers
  it created.
- Configuration: file writes succeed.  Supervisor: durations are representable.

## Where the code and its documentation differ

The model follows the code in each case.

- `downstream` takes a FIFO slot for every `Error` (crates/mediaservo-host/src/gateway.rs:228-239), while
  crates/mediaservo-host/src/controller.rs:854 expects errors that match no request to be broadcast.  The
  server acknowledges `SetPreferredLayers`, which takes no slot, with an `Error` of code 0
  (crates/mediaservo-server/src/signaling.rs:2050-2095), so replies can cross:
  `UnmatchedErrorCrossesReplies` is such a run.
- The drain at crates/mediaservo-client/src/supervisor.rs:232 is meant for notices of old generations.
  What it discards is always the new session's own notice, when that session breaks during the replay
  (`DrainMeetsOnlyTheNewNotice`); the
  supervisor then stays parked and reads Connected (`BreakDuringReplayIsLost`, `ParkedForGood`).  This happens
  exactly when a forwarder dies in that window (`ParkedCanStillHealIffNoEarlyDeath`).
- `connection_state` is documented as readable live (crates/mediaservo-client/src/session.rs:507-511), but
  the state watch is created without a receiver and its `send`, which stores nothing then, has its error
  ignored (crates/mediaservo-client/src/supervisor.rs:97, 138-140).  What is read is what was last written
  while somebody was subscribed: `StateIsWhatWasWatched`, `StateIsRightIffShown`, `PollingSeesNothing`,
  `HealedCanReadReconnecting`.
- The first backoff sleep is not capped, so the capped closed form holds from the start exactly when
  base is at most max (`CappedFromTheStart`).
- The comment on the wire version (crates/mediaservo-link/src/frame.rs:15) says that encoding always
  writes the current version; `encode` writes the value's own.
- "files are never partially rewritten" and "host.yaml unchanged"
  (crates/mediaservo-host/src/translate.rs:390-398, 539-566) do not cover a refusal by the oxfile
  generation, which comes after the backup and the replacement of host.yaml.  The agent also does not
  remember the version then, or when its config core does not apply it, while a restart recovers it
  from the backup: `RejectedMeansUnchangedIffEarly`, `InStepIffWhole`, `HalfAppliedPushMakesRestartVisible`.
- The hex decoder accepts `+` before a digit, because the library parser does
  (crates/mediaservo-common/src/protocol.rs:655-665); `FromHexSpells` states exactly which texts decode.
- A reported bitrate saturates at the largest u32, so the half-kilobit bound holds exactly for rates that
  fit (`RateIsWithinHalfIffItFits`).

## Model

| member | source | states |
|---|---|---|
| GatewayRuns.EveryReplyReachesItsSender | crates/mediaservo-host/src/gateway.rs:189-248 | in every fault-free run over any number of sessions, each answer handed to a child answers a request of that same child, and `pending` is the owners of the requests unread, on the wire and queued, in that order |
| GatewayRuns.EverySessionStartsAfresh | crates/mediaservo-host/src/gateway.rs:307-315 | whatever went wrong in earlier sessions, while no step since the last rejoin was faulty the pairing holds and every answer of the current session is with the child that asked |
| GatewayRuns.AlignmentIsLostExactlyByFaults | crates/mediaservo-host/src/gateway.rs:217-248 | from an aligned state a step breaks the pairing if and only if it routes a reply-class message that answers no SFU request while requests are pending, or loses an answer to lag |
| GatewayRuns.PairingHoldsIffFaultFree | crates/mediaservo-host/src/gateway.rs:189-248 | a run over any number of sessions keeps the pairing at every moment if and only if none of its steps is one of the two faults |
| GatewayRuns.AnswerTakesItsOwnSlotIffAligned | crates/mediaservo-host/src/gateway.rs:227-248 | answers arrive in request order; an aligned answer reaches its requester alone with that child's room, or nobody if it closed, and a misaligned one takes another request's slot or none |
| GatewayRuns.PromisesRuleOutFaults | crates/mediaservo-host/src/gateway.rs:829-866 | a server that uses reply-class messages only as answers and a stream that never lags give a fault-free run |
| GatewayRuns.NoStrayKept | crates/mediaservo-host/src/gateway.rs:829-866 | one step under the promises is not faulty and leaves no unread reply-class message that answers nothing |
| GatewayRuns.StepKeepsInv | crates/mediaservo-host/src/gateway.rs:685-706 | every step of children, server, session and drains keeps the coupling between the FIFO, the queues, the wire and the unread answers |
| GatewayRuns.ChildStepShape | crates/mediaservo-host/src/gateway.rs:674-706 | a child's message takes a FIFO slot and queues its request together or does neither, and enters the echo cache at most once |
| GatewayRuns.RunsKeepInv | crates/mediaservo-host/src/gateway.rs:593-881 | the coupling invariant holds after every run from start-up, faulty or not |
| GatewayRuns.StepKeepsHome | crates/mediaservo-host/src/gateway.rs:838-850 | no step that is not faulty hands an answer to a child that did not ask, even with closes between routing and delivery |
| GatewayRuns.RejoinStartsClean | crates/mediaservo-host/src/gateway.rs:790-823 | whatever children sent while the session was down, the FIFO and the echo cache are empty and no SFU request is queued when `joined` becomes true again |
| GatewayRuns.AnswersComeOnceInOrder | crates/mediaservo-host/src/gateway.rs:227-248 | in every run, faulty or not, the answers handed over are in the order of their sessions and of their requests within a session, so no request is answered twice |
| GatewayRuns.AnswerNamesTheDeclaredRoom | crates/mediaservo-host/src/gateway.rs:135-248 | in any run with a server that answers in the room it was asked in, whatever else is in flight, an aligned answer reaches its sender alone with its payload unchanged and names the room of the request, still the sender's own, if and only if that room survives the two rewrites |
| GatewayRuns.RunsKeepRooms | crates/mediaservo-host/src/gateway.rs:203-213 | in such runs every queued or travelling SFU request is the rewrite of what its sender sent, and every unread answer names that room |
| GatewayRuns.EchoIsTheLastForwarded | crates/mediaservo-host/src/gateway.rs:203-224 | in every run a server message is swallowed exactly when it is among the last min(256, n) Sdp, candidate and Frame messages forwarded in this session; all others are routed in full |
| GatewayRuns.UnmatchedErrorCrossesReplies | crates/mediaservo-host/src/gateway.rs:228-239 | a reachable state, in any room, in which an unmatched acknowledgement went to one child and that child's transport to another |
| GatewayRuns.RoutedIsHandedOver | crates/mediaservo-host/src/gateway.rs:838-850 | routing hands over exactly the targets and messages the gateway decided, and delivering one reaches its child unless it closed in between |
| GatewayRuns.DeathIsReported | crates/mediaservo-host/src/gateway.rs:736-752 | a child that published and closes is reported under the identity and the room it published with |
| GatewayRuns.EnqueueIsPush | crates/mediaservo-host/src/gateway.rs:487-500 | queueing in a run is the push of the queue object |
| GatewayRuns.QueuesGoOutInOrder | crates/mediaservo-host/src/gateway.rs:821-881 | both queues are sent and drained from the front, one message at a time |
| GatewayRuns.AgentReportsInASession | crates/mediaservo-host/src/gateway.rs:540-546 | the agent's own reports are queued in a session and dropped without one |
| Gateway.State.constructor | crates/mediaservo-host/src/gateway.rs:593-605 | the gateway starts with no connections, nothing pending and not joined |
| Gateway.State.AcceptConn | crates/mediaservo-host/src/gateway.rs:629-646 | a new connection gets a fresh id and an empty room |
| Gateway.State.UpstreamMsg | crates/mediaservo-host/src/gateway.rs:135-214 | a child's message changes the state and is forwarded, answered locally or dropped as the transition function used in all runs says |
| Gateway.State.DownstreamMsg | crates/mediaservo-host/src/gateway.rs:217-297 | a server message is suppressed, takes the FIFO head, goes to its room, to the configuration mailbox or to everyone, rewritten per target |
| Gateway.State.Remove | crates/mediaservo-host/src/gateway.rs:299-304 | closing a connection leaves its pending slots in place |
| Gateway.State.Reset | crates/mediaservo-host/src/gateway.rs:307-315 | a lost session clears everything bound to it and keeps connections and pushed configuration |
| Gateway.State.OnEnvelope | crates/mediaservo-host/src/gateway.rs:685-706 | taking the FIFO slot and enqueueing happen together; on a closed queue the state is that of the message with the last slot taken back, which restores the FIFO exactly when the message was an SFU request or nothing was pending |
| Gateway.UpstreamQueue.Push | crates/mediaservo-host/src/gateway.rs:487-500 | status reports are dropped and counted when their queue is full, all else is queued in order, and only a closed queue fails |
| Gateway.UpstreamQueue.Drain | crates/mediaservo-host/src/gateway.rs:821-822 | both queues are emptied |
| Gateway.RequestGetsItsAnswer | crates/mediaservo-host/src/gateway.rs:200-239 | for each of the five requests and its answer, or an error instead of it: a child that asks while nobody waits gets it, and nobody else does |
| Gateway.RequestsWaitInLine | crates/mediaservo-host/src/gateway.rs:189-202 | exactly the messages that have an answer take a slot, the last one, and only in a session |
| Gateway.NegotiationStaysInItsRoom | crates/mediaservo-host/src/gateway.rs:249-265 | an offer, answer or candidate that is no echo goes to exactly the children in its room, unchanged but for the room they declared |
| Gateway.AnnouncementReachesEveryone | crates/mediaservo-host/src/gateway.rs:284-296 | every other message reaches every child, in its own room, unchanged otherwise |
| Gateway.ConfigIsForTheAgent | crates/mediaservo-host/src/gateway.rs:266-283 | a configuration push reaches no child and is kept exactly when room and vehicle match |
| Gateway.RelayedMessageDoesNotReturn | crates/mediaservo-host/src/gateway.rs:203-224 | a forwarded Sdp, candidate or Frame is swallowed when it comes back |
| Gateway.OnlyRelaysAreRemembered | crates/mediaservo-host/src/gateway.rs:175-210 | no other message enters the echo cache |
| Gateway.NothingLeavesWithoutASession | crates/mediaservo-host/src/gateway.rs:144-199 | without a session nothing is forwarded, waits or is remembered, and every message but a leave is answered with error 5001 |
| Gateway.JoinIsAnsweredHere | crates/mediaservo-host/src/gateway.rs:145-169 | a child's join records its room and, in a session, is answered with the vehicle's identity and a protocol that child and server both speak |
| Gateway.OthersAreForwarded | crates/mediaservo-host/src/gateway.rs:170-213 | a leave goes nowhere, encoder status keeps its room, and all else is moved to the vehicle's room unless the room is the child's own |
| Gateway.RewriteMovesTheRest | crates/mediaservo-host/src/gateway.rs:383-435 | rewriting changes the room alone, and that of no audio room and no stream room |
| Gateway.ChildrenOutliveTheSession | crates/mediaservo-host/src/gateway.rs:307-315 | children, their rooms and a waiting configuration push outlive a lost session; identity, protocol and ticket are those of the new one |
| Gateway.NewChildIsNobody | crates/mediaservo-host/src/gateway.rs:629-646 | a new connection gets an unused id and has no room, source or producer |
| Gateway.SourceIsNoted | crates/mediaservo-host/src/gateway.rs:687-690 | a message notes its connection's source and touches no other connection |
| Gateway.PushKeepsClasses | crates/mediaservo-host/src/gateway.rs:487-500 | status reports and the rest never mix, at most 16 reports wait, each push queues its message or counts it as dropped, and only a report can be dropped |
| Gateway.RoomRoundTrip | crates/mediaservo-host/src/gateway.rs:383-435 | rewriting a message to the vehicle room and its reply back gives the child's declared room if and only if that room passes through or the vehicle room does not |
| Gateway.RollbackRestores | crates/mediaservo-host/src/gateway.rs:695-701 | rolling back the last slot after a forwarded message gives the FIFO back if and only if the message was an SFU request or nothing was pending |
| Gateway.RewriteIsIdempotent | crates/mediaservo-host/src/gateway.rs:383-435 | rewriting twice to one room is rewriting once |
| Gateway.RoomRoundTripCanFail | crates/mediaservo-host/src/gateway.rs:392-399 | a vehicle room that looks like a stream room of the child's is not rewritten back |
| Supervisor.RunsKeepInv | crates/mediaservo-client/src/supervisor.rs:162-256 | in every run the newest generation is accounted for exactly once, tickets and sleeps are as promised, and Failed or Disconnected is read only after the supervisor ended |
| Supervisor.StepKeepsInv | crates/mediaservo-client/src/supervisor.rs:162-256 | every step of supervisor, forwarders and application keeps that invariant |
| Supervisor.AtMostOneBreakInFlight | crates/mediaservo-client/src/supervisor.rs:162-194 | live forwarders plus unread dead notices never exceed one |
| Supervisor.ParkedCanStillHealIffNoEarlyDeath | crates/mediaservo-client/src/supervisor.rs:203-234 | after every run a parked supervisor has exactly one of them if and only if no forwarder died between the last successful connect and the end of its drain; otherwise it can notice no further break |
| Supervisor.DrainMeetsOnlyTheNewNotice | crates/mediaservo-client/src/supervisor.rs:231-232 | in every run the drain never meets a notice of an earlier generation: whatever it discards is the new session's own, and no other step loses a notice |
| Supervisor.StateIsWhatWasWatched | crates/mediaservo-client/src/supervisor.rs:117-140 | the state read is, after every run, what was last written while the watch had a receiver: Failed or Disconnected exactly when that end was watched, Reconnecting exactly when the last watched start or end of a chain was a start, else Connected |
| Supervisor.StateIsRightIffShown | crates/mediaservo-client/src/supervisor.rs:203-233 | the state tells where a running supervisor is if and only if the last watched start or end of a chain is of the same kind as the last one |
| Supervisor.PollingSeesNothing | crates/mediaservo-client/src/supervisor.rs:97-140 | an application that never subscribes reads Connected throughout |
| Supervisor.HealedCanReadReconnecting | crates/mediaservo-client/src/supervisor.rs:203-233 | a receiver dropped during a chain leaves Reconnecting behind for a supervisor that has healed |
| Supervisor.ParkedForGood | crates/mediaservo-client/src/supervisor.rs:203-211 | without a forwarder or a notice, no later run short of a shutdown moves the supervisor |
| Supervisor.BreakDuringReplayIsLost | crates/mediaservo-client/src/supervisor.rs:224-233 | such a state is reached when the new session breaks during the replay, and it reads Connected, watched or not |
| Supervisor.TerminalStatesStay | crates/mediaservo-client/src/supervisor.rs:212-215 | once Failed or Disconnected, every further run stays there |
| Supervisor.TicketsAreOneShot | crates/mediaservo-client/src/supervisor.rs:219-222 | over every run each session's resume ticket is presented in at most one connect attempt |
| Supervisor.IssuedTicketIsOffered | crates/mediaservo-client/src/supervisor.rs:217-222 | over every run the first attempt after a break offers the session's ticket exactly when the server issued one, and no later attempt offers any |
| Supervisor.BreakStartsAChain | crates/mediaservo-client/src/supervisor.rs:207-221 | over every run a noticed break starts a chain at the first delay, or ends the supervisor if reconnection is off |
| Supervisor.SuccessStartsOneForwarder | crates/mediaservo-client/src/supervisor.rs:223-229 | over every run a successful attempt starts one forwarder, of a new session whose ticket has not been presented |
| Supervisor.EndedForGood | crates/mediaservo-client/src/supervisor.rs:198-256 | a supervisor that has ended connects no more, sleeps no more and starts no forwarder |
| Supervisor.ShutdownEndsIt | crates/mediaservo-client/src/supervisor.rs:129-136 | a shutdown ends the supervisor wherever it is |
| Supervisor.SleepsAreCappedDoublings | crates/mediaservo-client/src/supervisor.rs:217-249 | over every run the sleep after the k-th failure of a chain is min(base * 2^(k-1), max) when base is at most max |
| Supervisor.DefaultSleeps | crates/mediaservo-client/src/supervisor.rs:57-61 | with the built-in parameters that sleep is min(200 * 2^(k-1), 5000) milliseconds |
| Supervisor.BackoffDoubles | crates/mediaservo-client/src/supervisor.rs:249 | saturating doubling with a cap is the closed form |
| Supervisor.CappedFromTheStart | crates/mediaservo-client/src/supervisor.rs:50-61 | the capped closed form covers the first sleep if and only if base is at most max |
| Supervisor.ReconnectChain | crates/mediaservo-client/src/supervisor.rs:217-251 | the ticket rides on the first attempt only, the n-th sleep is the n-th backoff, and the chain ends as its last outcome says, or is still trying after retryable failures only |
| Consumer.ReplayConsumers | crates/mediaservo-client/src/supervisor.rs:260-314 | every slot before a shutdown ends as its own outcomes alone decide, with at most three attempts; slots after it are untouched; without a shutdown all are done |
| Consumer.ReplaySlot | crates/mediaservo-client/src/supervisor.rs:264-313 | a slot gets a new pc and a bumped epoch exactly when an attempt succeeds, and keeps both otherwise |
| Consumer.ConsumerSlot.constructor | crates/mediaservo-client/src/consumer.rs:106-124 | a slot starts without a pc, with its own differ |
| Consumer.ConsumerSlot.SetPc | crates/mediaservo-client/src/consumer.rs:125-129 | installing a pc bumps the epoch; producer id and frame channel are constants |
| Consumer.RatesAddUpToBytes | crates/mediaservo-client/src/consumer.rs:59-99 | over every steady tick run the reported kilobits differ from eight per byte received by at most half the elapsed milliseconds |
| Consumer.RateIsWithinHalfIffItFits | crates/mediaservo-client/src/consumer.rs:59-66 | a single rate meets that bound if and only if it does not exceed the u32 range by more than rounding |
| Consumer.FirstTickAfterBumpIsZero | crates/mediaservo-client/src/consumer.rs:59-100 | the first tick after a bump reports zero rates in a new epoch |
| Consumer.ReportReadsTheStats | crates/mediaservo-client/src/consumer.rs:59-92 | each field of a report reads its own counter or measurement, rounded to the nearest; rates are zero without a baseline or an increase |
| Consumer.SecondTickReportsTheDifference | crates/mediaservo-client/src/consumer.rs:59-92 | of two ticks in one epoch the second reports the rate and the decode time per frame of what came between |
| Consumer.LossIsAShare | crates/mediaservo-client/src/consumer.rs:78-83 | the loss is between 0 and 100 and is the share of lost packets in all packets |
| Consumer.QoeDiffer.Diff | crates/mediaservo-client/src/consumer.rs:59-92 | a tick reports the rates since the last one and becomes the new baseline |
| Consumer.QoeDiffer.BumpEpoch | crates/mediaservo-client/src/consumer.rs:94-99 | a bump advances the epoch with wrap-around and voids the baseline |
| Session.FoldInboundStats | crates/mediaservo-client/src/session.rs:46-93 | the result is the sums and maxima over exactly the newest row of each (ssrc, id), for any iteration order of the map |
| Session.NewestRows | crates/mediaservo-client/src/session.rs:62-76 | the first loop keeps the newest row of each key, and the earlier one of a tie |
| Session.AddUp | crates/mediaservo-client/src/session.rs:77-92 | the second loop gives the total in whatever order it walks the map |
| Session.TotalAnyOrder | crates/mediaservo-client/src/session.rs:77-92 | any row can be the last one added |
| Session.TotalCovers | crates/mediaservo-client/src/session.rs:77-92 | every counter covers and every maximum bounds each single row |
| Session.AddingARow | crates/mediaservo-client/src/session.rs:77-92 | with any one more row each counter grows by that row's and each maximum to that row's if it is larger |
| Session.MaximaAreAttained | crates/mediaservo-client/src/session.rs:77-92 | each maximum is some row's value, or zero for want of a positive one |
| Session.MaximaBound | crates/mediaservo-client/src/session.rs:77-92 | no row exceeds a maximum |
| Session.FoldIgnoresRowOrder | crates/mediaservo-client/src/session.rs:46-93 | tables with the same rows in any order fold to the same result when timestamps tell the rows of a key apart |
| Session.TiesFollowTheOrder | crates/mediaservo-client/src/session.rs:66-76 | with equal timestamps the earlier row wins, so the order shows |
| FrameStream.NoLostWakeup | crates/mediaservo-link/src/frame.rs:106-168 | in every run a parked call without a notification sees no frame and no shutdown except from a writer that has yet to notify |
| FrameStream.OwedNotificationWakes | crates/mediaservo-link/src/frame.rs:106-109 | the notification such a writer owes wakes the parked call |
| FrameStream.QuietMeansNothingToSee | crates/mediaservo-link/src/frame.rs:155-168 | once all notifications are out, no call stays parked beside a frame or a shutdown |
| FrameStream.FramesAreTakenOnceInOrder | crates/mediaservo-link/src/frame.rs:106-168 | across all consumers each frame is taken at most once, in delivery order, while it was the latest |
| FrameStream.ReturnedFramesWereTaken | crates/mediaservo-link/src/frame.rs:155-168 | in every run a frame that a call returned was taken from the slot, and no two calls return the same one |
| FrameStream.TakerReturnsWhatItTook | crates/mediaservo-link/src/frame.rs:160-162 | the call that empties the slot returns the frame that was in it, and disturbs no other call |
| FrameStream.UndisturbedCall | crates/mediaservo-link/src/frame.rs:155-168 | a call returns the frame if there is one, else nothing if the stream is shut down, else it parks |
| FrameStream.DeliveryReplaces | crates/mediaservo-link/src/frame.rs:106-109 | a delivery replaces whatever was in the slot and owes a notification |
| FrameStream.NoneOnlyAfterShutdown | crates/mediaservo-link/src/frame.rs:161-166 | a call returns without a frame only after a shutdown |
| FrameStream.RunsKeepInv | crates/mediaservo-link/src/frame.rs:106-168 | the stage invariant behind these holds after every run |
| FrameMeta.Encode | crates/mediaservo-link/src/frame.rs:36-48 | the buffer filled in place is the wire layout |
| FrameMeta.DecodeEncode | crates/mediaservo-link/src/frame.rs:36-76 | decoding an encoding with any trailing bytes gives the value back exactly when its version is the wire version, and is refused otherwise |
| FrameMeta.EncodeDecode | crates/mediaservo-link/src/frame.rs:36-76 | re-encoding accepted bytes gives them back if and only if byte 18 is 0 or 1 and byte 19 is 0 |
| FrameMeta.Reencoded | crates/mediaservo-link/src/frame.rs:36-76 | re-encoding canonicalizes those two bytes and keeps all others |
| FrameMeta.DecodeReadsAPrefix | crates/mediaservo-link/src/frame.rs:50-76 | only the first 36 bytes matter, and exactly the shorter inputs are too short |
| FrameMeta.WireFormat | crates/mediaservo-link/src/frame.rs:36-76 | where each field lies in the 36 bytes, and that exactly version 0 is read |
| FrameMeta.LastWeighsMost | crates/mediaservo-link/src/frame.rs:36-76 | numbers are little-endian: each further byte weighs 256 times the one before |
| Controller.LedgerIsExact | crates/mediaservo-host/src/controller.rs:736-847 | for every event order each remote producer has been consumed once more than torn down while it is being consumed and equally often otherwise, own producers never, with at most one live channel per producer |
| Controller.LedgerIsRightIffPromised | crates/mediaservo-host/src/controller.rs:736-847 | the ledger is right at every moment of a run if and only if every event of it keeps the promise about answers |
| Controller.CreatedProducersAreNeverConsumed | crates/mediaservo-host/src/controller.rs:592-751 | in every run after a successful setup no producer that the setup created is ever consumed, and every other producer announced during setup has been consumed exactly once when the loop starts |
| Controller.AnnouncedIsConsumed | crates/mediaservo-host/src/controller.rs:742-790 | an announcement cached during setup or read by the loop leaves its producer consumed exactly once |
| Controller.EventKeepsInv | crates/mediaservo-host/src/controller.rs:777-847 | an event keeps the ledger's invariant if and only if a routable answer names a remote producer being consumed |
| Controller.EventKeepsChannels | crates/mediaservo-host/src/controller.rs:791-847 | at most one live channel per producer, whatever the server sends |
| Controller.AnswerKeepsPairing | crates/mediaservo-host/src/controller.rs:791-834 | a routed answer keeps requests and purge entries paired exactly when its producer is remote and being consumed |
| Controller.OneAnswerEachIsEnough | crates/mediaservo-host/src/controller.rs:663-676 | over every run, one answer per consume request of this controller keeps that promise |
| Controller.CloseTearsDownIffRouted | crates/mediaservo-host/src/controller.rs:835-847 | a close tears down exactly when a channel was routed, and only then can the producer be consumed again |
| Controller.CloseEventTearsDown | crates/mediaservo-host/src/controller.rs:835-847 | a close event of an audio or video producer changes nothing; that of a routed data producer leaves it without a live channel and ready to be consumed again; no other producer is touched |
| Controller.AnswerEventRoutes | crates/mediaservo-host/src/controller.rs:791-834 | an answer event for an awaited producer gives it exactly one live channel when it can be routed and none otherwise |
| Controller.AnnouncementEventConsumes | crates/mediaservo-host/src/controller.rs:777-790 | an announcement event consumes a producer exactly if it is not consumed yet |
| Controller.OtherEventsChangeNothing | crates/mediaservo-host/src/controller.rs:848-868 | no other event touches the ledger |
| Controller.OnlyMessagesKeepTheLoop | crates/mediaservo-host/src/controller.rs:753-887 | the loop reads on after messages and connects and ends at everything else |
| Controller.WhatEndsAWait | crates/mediaservo-host/src/controller.rs:445-522 | which events answer and which fail a wait of setup; the acknowledgement of a connect does neither |
| Controller.OtherMessagesAreReadPast | crates/mediaservo-host/src/controller.rs:445-522 | no other message ends a wait |
| Controller.ForeignAnswerBreaksTheLedger | crates/mediaservo-host/src/gateway.rs:284-295 | a broadcast answer that names an own producer leads to that producer being consumed |
| Controller.Await | crates/mediaservo-host/src/controller.rs:445-522 | a wait ends at the first wanted or fatal event and has cached every announcement before it |
| Controller.Setup | crates/mediaservo-host/src/controller.rs:592-660 | setup succeeds if and only if the events answer all its waits in order, ends at the first wait that gets no answer, `own` is exactly the producers its answers named, and the cache exactly the announcements read |
| Controller.StoppedShort | crates/mediaservo-host/src/controller.rs:592-660 | a wait that ends without an answer means that no other reading of the events succeeds |
| Controller.DrainCache | crates/mediaservo-host/src/controller.rs:742-751 | cached announcements are consumed in order, each id once and own ids never |
| Controller.RunLoop | crates/mediaservo-host/src/controller.rs:753-887 | the loop plays its events up to the first one that ends it |
| Controller.ControlLoop | crates/mediaservo-host/src/controller.rs:695-887 | the controller becomes ready if and only if setup succeeds, its own producers are those it created, its ledger is the drained cache followed by the loop's events, and the exit code is 0 exactly for a requested stop |
| Controller.ControlLedger.OnConsumed | crates/mediaservo-host/src/controller.rs:791-834 | an answer routes a channel and silences the one it replaces |
| Controller.ControlLedger.OnClosed | crates/mediaservo-host/src/controller.rs:835-847 | a close silences the routed channel and forgets the producer |
| Controller.ControlLedger.OnAnnounced | crates/mediaservo-host/src/controller.rs:777-790 | an announcement is consumed unless its producer already is |
| CommandGate.RouteChannel | crates/mediaservo-host/src/controller.rs:387-426 | over every message sequence acks and audit lines match the parseable envelopes one to one, in order, echoing their sequence numbers, and the actuator runs on exactly the permitted ones |
| CommandGate.HandleCommand | crates/mediaservo-host/src/controller.rs:287-384 | one message gives at most one ack and audit line, and acts exactly when the verdict allows |
| CommandGate.SignedIsAllowed | crates/mediaservo-common/src/protocol.rs:600-665 | an envelope signed with the configured key is always allowed |
| CommandGate.SignedEstopNeedsTheMac | crates/mediaservo-host/src/controller.rs:262-285 | a signed emergency stop is allowed exactly when its signature spells the authenticator of this very sequence number, command and payload |
| CommandGate.RefusalMatrix | crates/mediaservo-host/src/controller.rs:262-285 | a refusal means an emergency stop, a configured key and a missing or wrong signature, and nothing else |
| CommandGate.FromHexOfHex | crates/mediaservo-common/src/protocol.rs:633-665 | the hex decoder inverts the hex printer |
| CommandGate.FromHexSpells | crates/mediaservo-common/src/protocol.rs:655-665 | exactly the texts that spell each byte in two characters decode to it |
| CommandGate.EstopFamily | crates/mediaservo-common/src/protocol.rs:594-596 | emergency stops are the bare word and whatever continues it after an underscore or a hyphen |
| CommandGate.UnsignedStopsAreRefused | crates/mediaservo-host/src/controller.rs:262-285 | with a key and no leave to go unsigned, an unsigned command passes exactly if it is no stop of the family |
| CommandGate.AuditWords | crates/mediaservo-host/src/controller.rs:262-285 | each audit word has its own condition, and two of them are the refusals |
| CommandGate.HexDigits | crates/mediaservo-common/src/protocol.rs:655-665 | the characters that are digits and their values, in either case |
| CommandGate.PairsSpell | crates/mediaservo-common/src/protocol.rs:655-665 | two characters spell two digits, or a plus sign and one |
| Emergency.RunsKeepInv | crates/mediaservo-host/src/emergency.rs:113-135 | in every interleaving the n counts are exactly 1 to n, exactly one trigger latches once any has swapped, and every audited trigger has exactly one line with its outcome |
| Emergency.StepKeepsInv | crates/mediaservo-host/src/emergency.rs:113-135 | every atomic action keeps this and never reopens the latch |
| Emergency.LatchStaysClosed | crates/mediaservo-host/src/emergency.rs:113-135 | a closed latch stays closed through every further run |
| Emergency.SecondCountedCanLatch | crates/mediaservo-host/src/emergency.rs:113-135 | under concurrency the latching trigger need not be the first counted |
| Emergency.AuditSaysWhoAndWhat | crates/mediaservo-host/src/emergency.rs:89-110 | an audit line names its trigger's source and sequence number beside its outcome, and a failed append adds none |
| Emergency.StubEmergencyActuator.Fire | crates/mediaservo-host/src/emergency.rs:89-135 | with one caller at a time `latched` holds exactly for count 1, and the audit gets one line when it can be written |
| ConfigPush.PushesAreAHistory | crates/mediaservo-host/src/translate.rs:368-398 | over every run of pushes, edits and restarts without a half-applied push, live versions strictly increase, recovery gives the last one, and each backup holds the bytes in force before its push |
| ConfigPush.SyncIsLostExactlyByHalfAppliedPushes | crates/mediaservo-host/src/bin/host-agent.rs:202-243 | memory and disk fall out of step if and only if a push replaced host.yaml and did not go live |
| ConfigPush.InStepIffWhole | crates/mediaservo-host/src/bin/host-agent.rs:202-243 | they stay in step through a whole run if and only if no push of it stops half way |
| ConfigPush.RejectedMeansUnchangedIffEarly | crates/mediaservo-host/src/translate.rs:392-398 | in an agent that is in step, a push that fails leaves the files unchanged if and only if its version is stale, it is invalid or there is no host.yaml |
| ConfigPush.FailedPushKeepsFilesIff | crates/mediaservo-host/src/translate.rs:392-398 | in any directory, the same or the push would have written what is already there; and a push succeeds if and only if it passes these checks and the oxfile is generated |
| ConfigPush.RestartIsInvisible | crates/mediaservo-host/src/bin/host-agent.rs:141-143 | while they are in step a restart changes nothing |
| ConfigPush.RestartsNeverMatter | crates/mediaservo-host/src/translate.rs:368-398 | a run without half-applied pushes ends with the same files, versions and history as the same run without its restarts |
| ConfigPush.BackupsFormAChain | crates/mediaservo-host/src/translate.rs:382-398 | over every run without local edits and half-applied pushes host.yaml holds what the last live push brought, and each backup what the one before it had brought, back to the first file |
| ConfigPush.OtherFilesAreLeftAlone | crates/mediaservo-host/src/translate.rs:336-398 | a push touches host.yaml, its temporary file and its own backup, and no other file |
| ConfigPush.HalfAppliedPushMakesRestartVisible | crates/mediaservo-host/src/translate.rs:539-566 | a half-applied push is accepted again if repeated, and refused as stale after a restart |
| ConfigPush.RefusedPushChangesNothing | crates/mediaservo-host/src/translate.rs:539-566 | each early refusal has its own condition on the inputs and changes no file; an accepted push leaves the new host.yaml, its oxfile and the backup of the old one |
| ConfigPush.BackupNames | crates/mediaservo-host/src/translate.rs:368-388 | backup names read back as their version, and the host files are not backups |
| ConfigPush.RecoveredIsUnique | crates/mediaservo-host/src/translate.rs:368-378 | recovery has one possible result |
| ConfigPush.HostDir.BackupHostConfig | crates/mediaservo-host/src/translate.rs:382-388 | the current host.yaml is copied under the version's name |
| ConfigPush.HostDir.AtomicWriteHost | crates/mediaservo-host/src/translate.rs:336-340 | the temporary file ends up as host.yaml |
| ConfigPush.HostDir.HandleConfigPush | crates/mediaservo-host/src/translate.rs:539-566 | gate, validation, backup, replacement and oxfile, in this order |
| ConfigPush.HostDir.RecoverConfigVersion | crates/mediaservo-host/src/translate.rs:368-378 | the largest version among the backups, or 0 |
| Decimal.ParsePrint | crates/mediaservo-host/src/translate.rs:368-388 | parsing a printed 64-bit version gives it back |
| Decimal.NoLeadingZero | crates/mediaservo-host/src/translate.rs:382-388 | versions are printed most significant digit first, without a leading zero |
| Sdp.BuildInjectSplit | crates/mediaservo-field/src/sfu.rs:50-173 | for inputs free of CR and LF, building, injecting and splitting gives exactly the built lines with the two ssrc lines right after the media identification |
| Sdp.BothSidesInject | crates/mediaservo-client/src/sfu.rs:155-181 | the same for the source names that the client and the field side use |
| Sdp.VideoIsWellShaped | crates/mediaservo-field/src/sfu.rs:50-141 | one media line, one media identification equal to the bundle tag, and the candidate lines exactly the routable candidates in order, after both |
| Sdp.DataIsWellShaped | crates/mediaservo-client/src/sfu.rs:61-95 | the same for the data-channel description |
| Sdp.CredentialsReadBack | crates/mediaservo-field/src/sfu.rs:50-141 | a reader of either description finds the user fragment and the password each under its own name, and the first fingerprint with its algorithm in small letters |
| Sdp.MediaSectionSays | crates/mediaservo-field/src/sfu.rs:50-141 | the media line, address, identification, direction and codec of the video section, each in its place |
| Sdp.DataSectionSays | crates/mediaservo-client/src/sfu.rs:61-95 | the same for the data-channel section |
| Sdp.SourceLines | crates/mediaservo-client/src/sfu.rs:155-181 | the two source lines as each side writes them |
| Sdp.InjectionWithoutMid | crates/mediaservo-client/src/sfu.rs:155-181 | a text without a media identification gets the name line alone, at its end |
| Sdp.ClientMirrorsField | crates/mediaservo-client/src/sfu.rs:100-150 | the client's video lines are the field side's server-sends lines, one for one |
| Sdp.CandidateParses | crates/mediaservo-client/src/sfu.rs:216-237 | a candidate's fields read back in the order of section 5.1 of RFC 8839 |
| Sdp.RoutableOnesExact | crates/mediaservo-client/src/sfu.rs:216-237 | exactly the candidates without a `.local` address are listed |
| Sdp.OnlyLocalNamesAreLeftOut | crates/mediaservo-client/src/sfu.rs:216-237 | exactly the candidates whose address contains `.local` nowhere are listed, in order and as often as given |
| Sdp.TypesAreKnown | crates/mediaservo-client/src/sfu.rs:216-237 | an unknown candidate type is written as host |
| Sdp.LettersChangeCase | crates/mediaservo-client/src/sfu.rs:100-237 | the transport is written in capitals and the fingerprint algorithm in small letters |
| Sdp.AppendCandidates | crates/mediaservo-client/src/sfu.rs:216-237 | one line per routable candidate is appended, in order |
| Sdp.BuildRemoteSdp | crates/mediaservo-field/src/sfu.rs:50-141 | the field side's text is the joined video lines |
| Sdp.BuildRecvVideoSdp | crates/mediaservo-client/src/sfu.rs:100-150 | the client's text is empty without a fingerprint, else the field side's text |
| Sdp.BuildDcRemoteSdp | crates/mediaservo-client/src/sfu.rs:61-95 | the data-channel text, empty without a fingerprint |
| Sdp.InjectLines | crates/mediaservo-client/src/sfu.rs:155-181 | two lines after the first media identification, or one at the end when there is none |
| Sdp.InjectRemoteSsrc | crates/mediaservo-field/src/sfu.rs:145-173 | the text is split and joined on the separator it uses, and unchanged without an ssrc |
| Lines.SplitJoin | crates/mediaservo-client/src/sfu.rs:155-181 | splitting a join gives the lines back |
| Lines.FindIsFirst | crates/mediaservo-client/src/sfu.rs:155-181 | the search finds the first occurrence, and none only when there is none |

## Left out

- Peer connections, the WebRTC engine, media paths and consume attempts: outcomes of attempts are inputs, and the engine calls and sends of the controller's setup succeed.
- JSON, HMAC-SHA256 and the constant-time comparison: serialization and authenticator are functions of which nothing is assumed; the echo cache holds messages instead of their JSON text.
- The server and the link's signal client: they enter as the stated assumptions only.
- Gateway local replies and the recovery notice sent after a reconnect: they are not in the delivery log, which holds what the server sent.
- Gateway timestamps, snapshots, polling of the configuration mailbox, the hand-over of the resume ticket to the link client, and what becomes of status reports once sent.
- Runs go on only while the queue is open: after a closed queue the connection task ends, and `OnEnvelope` states the state it leaves.
- `BreakSession` is allowed while routed messages are still being handed out, which covers more runs than the program has.
- GatewayRuns.UnmatchedErrorCrossesReplies: one witness; the exact condition is AlignmentIsLostExactlyByFaults.
- The frame stream is modelled on values as a state machine of its atomic actions, not as an object updated in place; dropping a waiting call is not modelled.
- 64-bit counters (frame and emergency counts, folded sums) do not wrap around; rates are computed over the reals, without the rounding of f64.
- Letter case is changed for ASCII letters only.
- `validate`, oxfile rendering, the key-file check and the config core are inputs of a push; `HostDir` holds the one configuration directory.
- Bus publishes and failed ack writes in command handling; labels of command channels.
- A `ConsumeData` whose send fails in the controller's loop, which the program only logs.
- `wait_video_producer_labeled` (picks a producer by label within a time window), HTTP login and room listing, the scan for conflicting processes, the process manager's invocation, metrics and plain configuration defaults.
