# MediaServo: signalling, sessions and configuration, verified

A Dafny model of the parts of MediaServo whose correctness depends on the order in which things
happen: the host agent's signalling gateway, the server's session registries, the SFU registries and
late-joiner synchronisation, crash-safe configuration versions, the frame stream's wake-ups and the
emergency latch; and of the byte-level and naming rules they rest on. `dafny verify dfyconfig.toml`
checks everything.

## How it is built

| file | models |
|---|---|
| `Messages.dfy` | the signalling messages, their classification and room rewriting |
| `Gateway.dfy` | the gateway's locked state, as functions and as the object whose methods change it |
| `GatewaySystem.dfy`, `GatewayHistory.dfy`, `GatewayProofs.dfy` | children, channel, wires, server and session loop as one step system; its state as told by the run; its invariant; the theorems |
| `Roles.dfy`, `Rooms.dfy`, `Sessions.dfy` | the authorisation matrix, room membership, join and disconnect over the server's maps |
| `Sfu.dfy` | transport and producer registries over interleaved operation histories, and when concurrent creation loses a transport; late-joiner synchronisation |
| `Oxfile.dfy`, `ConfigStore.dfy` | configuration validation and process names; pushing a configuration file operation by file operation |
| `FrameStream.dfy`, `FrameMeta.dfy` | the latest-slot stream and its wake-up protocol; the 36-byte frame header |
| `Emergency.dfy` | the emergency latch under interleaved triggers |
| `Token.dfy`, `AnnexB.dfy`, `Bytes.dfy` | the token file codec, the H.264 keyframe scan, little-endian integers |

An object the source mutates is a class; each method's contract gives its new state as a function of
the old one (`Upstream`, `Downstream`, `Join`, `Disconnect`, `CreateTransport`, ...). The step systems
are built from those same functions, so what is proved of all runs is proved of what the methods do.
A run is a list of labelled steps, `Reaches` says where it leads, and every theorem about runs
quantifies over all of them. Code that interleaves inside an operation (frame stream, emergency
latch, configuration push, session teardown, transport creation) has one step per atomic action; a lemma named
`Uninterrupted...` says that the method is the run with nothing in between.

## What the gateway theorems assume

These hypotheses are built into the step system, or required as `Disciplined`:

- The server handles messages one at a time and answers each of the five queue-routed request kinds
  exactly once (`ServerAnswers`, `ServerSkips`); `Answers` lists what an answer may be.
- The agent joined as a host, so its session is a device or, without credentials, a legacy one
  (`VehicleIdentity`), and its status reports are not refused.
- The server sends a queue-routed kind only as an answer, and otherwise only for the kinds
  `DrawsUnslottedError` names for that identity (`ServerObjects`): data-channel requests, configuration
  pushes and, from a device, emergency commands.
- `send_remote` carries status reports only (`AgentReports`).
- The session's event broadcast never lags, and serialisation of messages is injective, so comparing
  serialised texts is comparing messages.
- `Disciplined`: children do not send those kinds. `DisciplineIsExact` shows that this
  hypothesis cannot be weakened for any of them.

Elsewhere: peer ids are unique among live sessions; joining and disconnecting are single steps; a file
rename is atomic; mediasoup objects have fresh ids; the room broadcast behind late-joiner
synchronisation loses nothing (a lagging receiver skips messages,
`crates/mediaservo-server/src/signaling.rs:655-657`); producing is one step, because the room's entry stays
locked across its await (`crates/mediaservo-server/src/sfu.rs:453-494`).

## Where the code does less than it says

- **An error for a request without a slot pops somebody else's slot.** The gateway routes every `error`
  by its queue, but keeps a slot only for five kinds. The server also answers data-channel
  requests, configuration pushes and a device's emergency commands with `error`
  (`crates/mediaservo-server/src/signaling.rs:767-837`, `:1296-1436`). `UnslottedErrorMisroutes` gives the run for every
  message of those kinds, `DisciplineIsExact` shows there is no other kind.
- **Rollback after a failed send** (`crates/mediaservo-host/src/gateway.rs:606-611`). The comment says popping the last
  slot is safe because this message pushed it. It restores the queue exactly when the message was one of the five
  request kinds or the queue was empty; any other message takes another request's slot away.
  Ownership and echo cache are not rolled back. The remote task has gone by then, so no response
  follows. See `Gateway.Gateway.Envelope`.
- **Room round trip.** A declared room comes back in the answer unless the vehicle room itself has the
  `audio-` prefix and the child's room has not; then the vehicle room comes back. `RoomRoundTrip` and
  `AnswersCarryTheDeclaredRoom` have both directions.
- **Late-joiner gap.** A producer is registered under the room in the request and announced on the
  broadcast of the producing session. If the two differ, a peer already synchronised never learns of
  it; `GapExactlyOnMismatch` has both directions.
- **Concurrent transport creation.** `create_webrtc_transport` looks for the room, awaits a router if there is
  none, and then inserts an empty room without looking again (`crates/mediaservo-server/src/sfu.rs:328-353`); a removal
  that emptied a room closes it without looking again (`:411-419`). Either takes away transports and
  bindings of peers that stay. `SecondInsertLosesTheFirst` and `LateClosingLosesTheNewcomer` are the
  runs; `LostExactlyWhenWiped` and `LosableExactlyWhenEndangered` the exact conditions; in runs where both
  guards still hold when the step is taken (`Careful`) nothing is lost. A transport whose room
  went during the second await is answered but not registered (`StoredExactlyWhenOpen`).
- **Errors after the rename.** `apply_config_push` documents that a failed push leaves files unchanged,
  and the caller logs the same. An error from writing the oxfile comes after host.toml was renamed; the
  agent then keeps its old version and accepts the same or a lower one over the newer file.
  `FailingLetsVersionsRegressExactlyAfterTheRename` and `FailedPushKeepsHostExactlyBeforeTheRename` say when.
- **Recovered is not applied.** A restart is documented to recover the version last applied. It recovers the
  newest backup's, which is that version exactly when it was renamed into place
  (`RecoveredIsLastAppliedExactly`). After a crash in between, a version never applied is
  reported and pushing it again is refused (`CrashBeforeTheRenameSkipsAVersion`).
- **Tenancy of sessions without a seat.** Members of a room share one device. Live sessions do so until a
  disconnect leaves the room without members while a device's session lives on unseated (kicked, its
  room removed, or cleared with the consumers of a lost host): the owner is forgotten and another device gets in.
  `AnotherDeviceGetsInExactly` has both directions.
- **A frame left at shutdown.** `recv` is commented to end when shut down and without a frame. A frame delivered
  after the receiver's look stays behind (`ShutdownLeavesAFrameExactly`, `ShutdownCanLeaveAFrame`).
- **Latch and counter are two atomics.** The trigger with count 1 arms exactly when the first swap is made
  by the first to count (`CountOneArmsExactly`); triggers one after the other do
  (`SequentialTriggersArmInOrder`), interleaved ones need not (`ArmingNeedNotCountFirst`).
- **Keyframes the scan misses.** A unit whose header byte is zero can swallow the start code that
  begins with that byte, and a stream that does not begin with a start code is not scanned at all.
  `IsKeyframe` says exactly which units are seen, `CompleteWithoutZeroHeaders` when that is all of
  them, `MissedKeyframes` that neither condition can be dropped.

## Model

| member | source | states |
|---|---|---|
| `Messages.RewriteChangesOnlyTheRoom` | crates/mediaservo-host/src/gateway.rs:346-383 | rewriting replaces the room field and nothing else: putting the old room back restores the message; audio rooms and messages without a room are untouched |
| `Messages.RewriteIsIdempotent` | crates/mediaservo-host/src/gateway.rs:346-383 | rewriting twice to one room is rewriting once |
| `Messages.RewriteTouchesExactlyRoutedKinds` | crates/mediaservo-host/src/gateway.rs:317-383 | a message can be changed by rewriting if and only if `msg_room_id` names a room for it that is not an audio room |
| `Messages.RewriteKeepsKind` | crates/mediaservo-host/src/gateway.rs:294-383 | classification by the gateway is the same before and after rewriting |
| `Messages.RoomsByKind` | crates/mediaservo-host/src/gateway.rs:317-352 | all but five kinds name a room, by their room field, and audio rooms are those whose name begins with `audio-` |
| `Messages.AnswersAreResponses` | crates/mediaservo-server/src/signaling.rs:1093-1511 | only the five request kinds have answers, and every answer is of a kind the gateway routes by its queue |
| `Messages.RequestsAreTheAnswered` | crates/mediaservo-host/src/gateway.rs:294-303 | the gateway keeps a slot for a message if and only if the server has an answer for it |
| `Messages.ResponsesAreTheAnswers` | crates/mediaservo-host/src/gateway.rs:196-201 | the gateway pops a slot for a message if and only if the server may write it as an answer |
| `Messages.EchoesAreTheRelayed` | crates/mediaservo-server/src/signaling.rs:869-875 | the kinds looked up in the echo cache are exactly those the server relays, negotiation among them |
| `Messages.RoomRoundTrip` | crates/mediaservo-host/src/gateway.rs:206-211 | request up, answer down: the child's room returns if and only if it is an audio room or the vehicle room is not |
| `GatewaySpec.UpstreamKeepsWellFormed` | crates/mediaservo-host/src/gateway.rs:127-184 | a child's message keeps ids below `next_id`, the owner connected and the echo cache within 256 |
| `Gateway.Gateway.AcceptChild` | crates/mediaservo-host/src/gateway.rs:544-557 | a child gets an id no connection holds or ever held |
| `Gateway.Gateway.Route` | crates/mediaservo-host/src/gateway.rs:127-184 | the new state and the action are those of `Upstream`, and a slot is added if and only if the message is forwarded and the server will answer it |
| `Gateway.Gateway.Envelope` | crates/mediaservo-host/src/gateway.rs:596-617 | slot and channel grow in one critical section, the slot if and only if the server will answer; after a failed send the last slot goes, which restores the queue if and only if this message pushed it or the queue was empty |
| `Gateway.Gateway.FromServer` | crates/mediaservo-host/src/gateway.rs:187-263 | the new state and the targets are those of `Downstream`, and a slot is popped if and only if the message can be an answer and there is one |
| `Gateway.Gateway.Disconnect` | crates/mediaservo-host/src/gateway.rs:265-273 | the connection goes and ownership with it; its slots stay |
| `Gateway.Gateway.SessionStarted` | crates/mediaservo-host/src/gateway.rs:670-675 | joined, with the peer id of the session |
| `Gateway.Gateway.SessionLost` | crates/mediaservo-host/src/gateway.rs:276-283 | everything tied to the session is cleared, connections and declared rooms stay |
| `Gateway.Gateway.DrainChannel` | crates/mediaservo-host/src/gateway.rs:679 | the channel is emptied and the state untouched |
| `Gateway.Gateway.SendRemote` | crates/mediaservo-host/src/gateway.rs:451-459 | the message enters the channel if and only if joined and the remote task lives |
| `Gateway.Gateway.TakeConfigPush` | crates/mediaservo-host/src/gateway.rs:462-464 | the latest push is handed out once |
| `GatewaySystem.SuffixAppend` | crates/mediaservo-host/src/gateway.rs:174-180 | trimming the echo cache after each append keeps the last 256 of all appended |
| `GatewayHistory.ConnsFollowTheRun` | crates/mediaservo-host/src/gateway.rs:127-134 | in any run the children are those accepted and not disconnected, under ids never given twice, each with the room of its last join |
| `GatewayHistory.SessionFollowsTheRun` | crates/mediaservo-host/src/gateway.rs:670-678 | in any run the state is joined exactly from a session's start to the reset after it, with that session's peer id |
| `GatewayHistory.SentFollowsTheRun` | crates/mediaservo-host/src/gateway.rs:152-181 | what counts as sent in this session is everything children said in it but joins and leaves, rewritten for the vehicle room |
| `GatewayHistory.EveryMessageGetsItsAction` | crates/mediaservo-host/src/gateway.rs:127-184 | in any run a join is answered with its own room and the peer in force, outside a session with error 5001 like every request; a leave is dropped; all else is forwarded |
| `GatewayHistory.ForwardingRecords` | crates/mediaservo-host/src/gateway.rs:163-180 | a forwarded message leaves a slot if the server will answer it, ownership if it is SDP or ICE, an echo if the server relays it, and nothing else; any other message leaves at most its declared room |
| `GatewayHistory.PushFollowsTheRun` | crates/mediaservo-host/src/gateway.rs:234-248 | in any run the waiting push is the last one dispatched for the vehicle room and the peer then in force, unless the agent has taken it since |
| `GatewayProofs.DispatchedResponse` | crates/mediaservo-host/src/gateway.rs:195-217 | the slot popped for a response is that of the connection whose request it answers; a dead slot drops it |
| `GatewayProofs.TargetsAreConnected` | crates/mediaservo-host/src/gateway.rs:187-263 | whatever comes down goes to connected children only, each time in that child's room |
| `GatewayProofs.StepKeeps` | crates/mediaservo-host/src/gateway.rs:572-728 | the invariant over state, channel, wires, queues and history is kept by each of the seventeen kinds of step |
| `GatewayProofs.RunKeeps` | crates/mediaservo-host/src/gateway.rs:572-728 | the invariant holds after every run |
| `GatewayTheorems.PendingIsOrigins` | crates/mediaservo-host/src/gateway.rs:592-617 | in a live session the queue is, in order, the true origins of all unanswered requests: answers on the wire down, wire up, channel |
| `GatewayTheorems.ResponsesReachTheirRequester` | crates/mediaservo-host/src/gateway.rs:195-217 | a delivered response answers a request its receiver made in this session, with nothing but its room changed |
| `GatewayTheorems.EveryChildIsServedInOrder` | crates/mediaservo-host/src/gateway.rs:265-273 | for a connected child, requests accepted are answers received plus slots queued, and the i-th answer is for the i-th request |
| `GatewayTheorems.QueueSplitsOwned` | crates/mediaservo-host/src/gateway.rs:196-217 | a connection's requests are those answered plus those it holds slots for |
| `GatewayTheorems.NothingCrossesSessions` | crates/mediaservo-host/src/gateway.rs:676-679 | before every join queue, channel, echo cache and owner are empty although children act between reset and drain; no message of an earlier session and no child's join or leave is ever held |
| `GatewayTheorems.OwnerIsLastNegotiator` | crates/mediaservo-host/src/gateway.rs:166-173 | the owner is the last child of the session to forward SDP or ICE, while it is connected, and otherwise nobody |
| `GatewayTheorems.EchoCacheIsRecent` | crates/mediaservo-host/src/gateway.rs:174-180 | the echo cache is the last min(n, 256) of the n relay messages forwarded in this session |
| `GatewayTheorems.EchoWindow` | crates/mediaservo-host/src/gateway.rs:188-194 | a relay message is suppressed if and only if it equals one of the last 256 forwarded; otherwise it goes to the owner or to all |
| `GatewayTheorems.EveryMessageHasItsAudience` | crates/mediaservo-host/src/gateway.rs:187-263 | in any run a connected child is handed a message from the server if and only if the session's history says so: it asked, it negotiated last, or the message is for all and no echo; and then in the room of its last join |
| `GatewayTheorems.PushesStayWithTheAgent` | crates/mediaservo-host/src/gateway.rs:234-248 | a stored push was addressed to the vehicle room and to the peer id of one of its sessions; no child is ever handed a push, whatever children send |
| `GatewayTheorems.AnswersCarryTheDeclaredRoom` | crates/mediaservo-host/src/gateway.rs:206-211 | in any run, a child that uses the room of its last join gets it back, if and only if that room is an audio room or the vehicle room is not |
| `GatewayTheorems.UnslottedErrorMisroutes` | crates/mediaservo-server/src/signaling.rs:767-837 | for every message that draws such an error from this vehicle session, a run in which the error is delivered to another child as the answer to that child's request |
| `GatewayTheorems.DisciplineIsExact` | crates/mediaservo-host/src/gateway.rs:294-303 | for a device session and for a legacy one: allowing children a message leads to a misrouted response in some run if and only if the message is of those kinds |
| `RoomsSpec.Evict` | crates/mediaservo-server/src/room.rs:160-171 | exactly the peer loses its seats |
| `RoomManagement.RoomManager.Join` | crates/mediaservo-server/src/room.rs:85-156 | refused if and only if the seat is taken, and then unchanged; otherwise the peer sits in the seat its role takes |
| `RoomManagement.RoomManager.Leave` | crates/mediaservo-server/src/room.rs:160-183 | the peer loses all its seats, vacant rooms go, and the result says whether this room is gone |
| `RoomManagement.RoomManager.Remove` | crates/mediaservo-server/src/room.rs:216-218 | the room goes with its members |
| `RoomManagement.RoomManager.ClearConsumers` | crates/mediaservo-server/src/room.rs:307-318 | consumers are returned and cleared, a room left vacant goes, every other room is untouched |
| `RoomManagement.RoomManager.KickPeer` | crates/mediaservo-server/src/admin.rs:361-402 | leaving room by room from a snapshot evicts the peer from every room at once |
| `RoomManagement.RoomManager.ConnectedPeers` | crates/mediaservo-server/src/room.rs:228-233 | the sum over rooms is the number of occupied seats |
| `RoomManagement.KickOneMore` | crates/mediaservo-server/src/admin.rs:380-383 | one more room left is one more room evicted from |
| `SessionsSpec.JoinSeats` | crates/mediaservo-server/src/room.rs:85-156 | a join seats exactly one more member, in exactly the seat its role and the room's type give; nobody else moves and the type stays |
| `SessionsSpec.JoinsAreRefusedExactly` | crates/mediaservo-server/src/signaling.rs:487-582 | a join is refused with 4031 exactly by the rows of the authorisation matrix, else with 4002 exactly for a taken seat; refused, it changes nothing |
| `SessionsSpec.JoinsRecordDevicesOnly` | crates/mediaservo-server/src/signaling.rs:558-573 | a successful join binds a device and records it as the room's owner; other sessions leave bindings, owners and reports alone |
| `SessionsSpec.ReportsAreStoredExactly` | crates/mediaservo-server/src/signaling.rs:745-765 | a report is stored as it is, under the session's room, if and only if the session is a device or a host |
| `SessionsSpec.DisconnectSeatsExactly` | crates/mediaservo-server/src/signaling.rs:981-1024 | after a disconnect everybody sits where they sat, but for the leaver and for all consumers of a streaming room whose host the leaver was; vacant rooms are gone |
| `SessionsSpec.KickSeatsExactly` | crates/mediaservo-server/src/admin.rs:361-383 | after a kick the peer sits nowhere and everybody else where they sat |
| `SessionsSpec.StepKeeps` | crates/mediaservo-server/src/signaling.rs:487-579 | join, report, disconnect, admin kick and admin removal each keep rooms, owners, bindings and reports consistent with the live sessions |
| `SessionsSpec.DisconnectsKeeps` | crates/mediaservo-server/src/signaling.rs:981-1036 | a disconnect keeps them too, a stream host's loss with its cleared consumers included |
| `SessionsSpec.RunKeeps` | crates/mediaservo-server/src/signaling.rs:487-1036 | they are consistent after every run |
| `SessionsSpec.RegistriesFollowSessions` | crates/mediaservo-server/src/signaling.rs:558-579 | no stored room is empty; members are live sessions of that room; owned or reporting rooms have a live session; device bindings are exactly the live device sessions |
| `SessionsSpec.QuietServerIsEmpty` | crates/mediaservo-server/src/signaling.rs:994-1036 | when every session has ended all four maps are empty |
| `SessionsSpec.DisconnectForgetsExactly` | crates/mediaservo-server/src/signaling.rs:981-1036 | owner and report of the leaver's room are dropped if and only if nobody else sat in it; no other room's are touched |
| `SessionsSpec.FullOnlyForALiveSession` | crates/mediaservo-server/src/room.rs:89-117 | a role finds the room full if and only if a live session of that role sits in its one seat |
| `SessionsSpec.RoomsHaveOneTenant` | crates/mediaservo-server/src/roles.rs:126-147 | device-bound members of a room share one device, the recorded owner |
| `SessionsSpec.OwnersStayKnownExactly` | crates/mediaservo-server/src/signaling.rs:1031-1036 | every live device session's room stays owned by its device in each step, except if and only if the step is a disconnect that empties a room while another device session lives in it |
| `SessionsSpec.MindfulRunsHaveOneLiveDevice` | crates/mediaservo-server/src/signaling.rs:534-573 | without such a disconnect no two devices are ever live in one room, seated or not |
| `SessionsSpec.AnotherDeviceGetsInExactly` | crates/mediaservo-server/src/signaling.rs:534-573 | after a disconnect another device can join and be live beside the first if and only if the disconnect forgot a live device |
| `SessionsSpec.SlotsRespectTheMatrix` | crates/mediaservo-server/src/signaling.rs:489-533 | no account holds a host slot, and an account in a remote slot is an operator's or an admin's |
| `SessionsSpec.StepKeepsSeats` | crates/mediaservo-server/src/room.rs:85-183 | nobody ever sits twice in a room |
| `SessionsSpec.SeatCountIsSeatedSessions` | crates/mediaservo-server/src/room.rs:228-233 | the reported peer count is the number of live sessions that hold a seat, so never more than there are sessions |
| `Sessions.SignalingServer.JoinRoom` | crates/mediaservo-server/src/signaling.rs:487-582 | the three gates, then the room, then device binding and ownership; a refusal changes nothing |
| `Sessions.SignalingServer.StoreReport` | crates/mediaservo-server/src/signaling.rs:745-765 | stored under the session's room unless neither device nor host |
| `Sessions.SignalingServer.EndSession` | crates/mediaservo-server/src/signaling.rs:981-1036 | room left, binding released, consumers of a lost stream host cleared, owner and report dropped if the room was gone before that |
| `SfuSpec.SendsAreHistory` | crates/mediaservo-server/src/sfu.rs:321-405 | whatever interleaves, a peer's send transports are exactly those stored while its room was there and neither taken away nor wiped since, the newest last |
| `SfuSpec.ProducingSucceedsExactly` | crates/mediaservo-server/src/sfu.rs:453-459 | for media and data alike, producing succeeds if and only if the named transport is one of those, or unnamed there is one |
| `SfuSpec.ProducesBindTheNamedOrNewest` | crates/mediaservo-server/src/sfu.rs:458-499 | the producer is bound to the transport it names, and unnamed to the newest of those at that time, whatever the order of creation |
| `SfuSpec.BindingsAreForever` | crates/mediaservo-server/src/sfu.rs:491-494 | a binding is unchanged if and only if its peer stayed and its room was not wiped; no later operation rebinds it |
| `SfuSpec.ProducersAreUnique` | crates/mediaservo-server/src/sfu.rs:785-800 | a producer id is bound in one place, so the search over all rooms and peers has one answer |
| `SfuSpec.TransportsAreHistory` | crates/mediaservo-server/src/sfu.rs:757-765 | connecting finds a transport if and only if it was stored for the peer while its room was there, in either direction, and neither taken away nor wiped since |
| `SfuSpec.ListedAreProduced` | crates/mediaservo-server/src/sfu.rs:804-818 | the producers a late joiner is told of, and the data producers, are exactly those produced for a peer and lost neither with it nor with its room |
| `SfuRaces.LostExactlyWhenWiped` | crates/mediaservo-server/src/sfu.rs:328-353 | a registered transport of a peer that stays is lost if and only if, later, a creation that had found the room absent inserts it or a removal that had emptied it closes it |
| `SfuRaces.LosableExactlyWhenEndangered` | crates/mediaservo-server/src/sfu.rs:328-353 | a step that takes neither peer nor room away can lose a transport if and only if such a creation or removal is under way |
| `SfuRaces.CarefulRunsLoseNothing` | crates/mediaservo-server/src/sfu.rs:321-405 | if the room is still absent at each insertion and still empty at each closing, a transport stays connectable while its peer stays |
| `SfuRaces.CarefulRunsKeepBindings` | crates/mediaservo-server/src/sfu.rs:491-494 | in those runs a binding lasts while its peer stays |
| `SfuRaces.CarefulRunsBindTheNewest` | crates/mediaservo-server/src/sfu.rs:161-166 | in those runs an unnamed producer goes to the latest send transport registered since the peer came |
| `SfuRaces.SecondInsertLosesTheFirst` | crates/mediaservo-server/src/sfu.rs:345-351 | for any room and peers, a run in which a second insertion takes away a transport and a binding though nobody left |
| `SfuRaces.LateClosingLosesTheNewcomer` | crates/mediaservo-server/src/sfu.rs:411-419 | for any room and two peers, a run in which closing an emptied room takes away a newcomer's transport |
| `SfuRaces.StoredExactlyWhenOpen` | crates/mediaservo-server/src/sfu.rs:373-404 | a transport answered as created can be connected if and only if its room was there when it was stored |
| `Sfu.SfuManager.CreateWebRtcTransport` | crates/mediaservo-server/src/sfu.rs:321-405 | uninterrupted: the room is there or inserted, the transport is appended and can be connected, and nothing else changes |
| `Sfu.SfuManager.Produce` | crates/mediaservo-server/src/sfu.rs:453-499 | the producer and its binding are recorded, or nothing changes |
| `Sfu.SfuManager.LookupTransport` | crates/mediaservo-server/src/sfu.rs:161-174 | the search finds the named transport, or the last one |
| `Sfu.SfuManager.DropPeer` | crates/mediaservo-server/src/sfu.rs:410-424 | uninterrupted: the peer goes, and the room with its last peer |
| `Sfu.UninterruptedCreation` | crates/mediaservo-server/src/sfu.rs:321-405 | the method's result is that of its two or three operations with nothing in between |
| `LateJoin.StepKeeps` | crates/mediaservo-server/src/signaling.rs:628-689 | every registered producer stays on its way to every joiner of its room |
| `LateJoin.NoGap` | crates/mediaservo-server/src/signaling.rs:628-689 | with message room and session room equal, a synchronised joiner whose queue has run out has been told of every registered producer |
| `LateJoin.MismatchLeavesGap` | crates/mediaservo-server/src/signaling.rs:1228-1234 | for any two different rooms, a run that leaves a joiner without a producer of its room |
| `LateJoin.GapExactlyOnMismatch` | crates/mediaservo-server/src/signaling.rs:1216-1239 | such a gap is possible if and only if the two rooms differ |
| `Oxfile.Validate` | crates/mediaservo-host/src/translate.rs:139-161 | accepts exactly the configurations with positive rates, well-formed ids and no id twice per kind; an error names an offending id |
| `Oxfile.CheckIds` | crates/mediaservo-host/src/translate.rs:145-171 | the loop accepts exactly distinct well-formed ids, a duplicate reported really occurs twice |
| `OxfileSpec.KindsNeverCollide` | crates/mediaservo-host/src/translate.rs:390-446 | fixed, capturer and streamer names never coincide, whatever prefix and ids |
| `OxfileSpec.NamesSpelledOut` | crates/mediaservo-host/src/translate.rs:106-111 | the names are those of the five fixed processes, one capturer per camera and one streamer per stream |
| `OxfileSpec.IdCharsByCode` | crates/mediaservo-host/src/translate.rs:164-171 | ids consist of ASCII digits, letters, hyphen and underscore |
| `OxfileSpec.InstanceNamesAreInjective` | crates/mediaservo-host/src/translate.rs:580-582 | one kind, two ids, two names |
| `OxfileSpec.AcceptedNamesAreDistinct` | crates/mediaservo-host/src/translate.rs:369-465 | an accepted configuration never yields two processes of one name |
| `OxfileSpec.ExpectedAreTheOxfileNames` | crates/mediaservo-host/src/translate.rs:468-486 | the monitor expects the oxfile's names, without the recorder when recording is off |
| `OxfileSpec.GrowingKeepsNames` | crates/mediaservo-host/src/translate.rs:578-582 | adding cameras or streams renames nothing |
| `OxfileSpec.RemovedApps` | crates/mediaservo-host/src/translate.rs:281-284 | exactly the live names that are not desired |
| `Oxfile.OxmgrApply` | crates/mediaservo-host/src/translate.rs:237-279 | afterwards what runs is what is desired and what could not be deleted; it is exactly the desired set if and only if every needed deletion succeeds |
| `Oxfile.WriteApps` | crates/mediaservo-host/src/translate.rs:390-463 | the three loops write the names in order, and only the recorder restarts on failure only |
| `Oxfile.ExpectedProcessNames` | crates/mediaservo-host/src/translate.rs:468-486 | the loops compute the expected names in order |
| `ConfigStoreSpec.SafeStep` | crates/mediaservo-host/src/translate.rs:174-224 | every file operation, crash, tear and error keeps host.toml whole and backed up |
| `ConfigStoreSpec.HostIsAlwaysWhole` | crates/mediaservo-host/src/translate.rs:174-224 | host.toml is always one accepted configuration, and a restart never recovers a version below an applied one |
| `ConfigStoreSpec.HostAlwaysNamesDistinctProcesses` | crates/mediaservo-host/src/translate.rs:139-161 | at any moment host.toml parses, has well-formed ids and positive rates, and names no process twice |
| `ConfigStoreSpec.FinishedPushLeavesTheTranslation` | crates/mediaservo-host/src/translate.rs:218-224 | whatever crashed before, a push that finishes leaves the oxfile that the new host.toml translates to |
| `ConfigStoreSpec.AppliedVersionsIncrease` | crates/mediaservo-host/src/translate.rs:339-366 | versions renamed into host.toml strictly increase over all crashes and restarts, if no operation errs after the rename |
| `ConfigStoreSpec.FailingLetsVersionsRegressExactlyAfterTheRename` | crates/mediaservo-host/src/translate.rs:218-224 | after any run so far without a late error: an error now lets some continuation write a version not above an earlier one if and only if host.toml is already renamed |
| `ConfigStoreSpec.LateFailureAcceptsOlder` | crates/mediaservo-host/src/translate.rs:339-353 | after a late error every version above the agent's old one, up to the one just written, is accepted over the newer file |
| `ConfigStoreSpec.FailedPushKeepsHostExactlyBeforeTheRename` | crates/mediaservo-host/src/translate.rs:216-224 | a push that fails leaves host.toml as it was on receipt if and only if it fails before the rename, or pushed the same text |
| `ConfigStoreSpec.RecoveredIsLastAppliedExactly` | crates/mediaservo-host/src/translate.rs:191-206 | a restart recovers the last applied version if and only if the newest backup's version was renamed into place, or there is no backup |
| `ConfigStoreSpec.CrashBeforeTheRenameSkipsAVersion` | crates/mediaservo-host/src/translate.rs:191-206 | for every version and configuration, a crash-only run after which that version is current, was never applied, and is refused |
| `ConfigStoreSpec.LateFailureLetsVersionsDrop` | crates/mediaservo-host/src/translate.rs:218-224 | from any accepted host.toml, a run in which version 1 is written over version 2 |
| `ConfigStoreSpec.BacksUpKeepsHistory` | crates/mediaservo-host/src/translate.rs:209-214 | a backup extends the chain and goes to a version that had none |
| `ConfigStoreSpec.BackupsReconstructHistory` | crates/mediaservo-host/src/translate.rs:194-224 | in crash-only runs the next backup, or host.toml after the last, is what this version's push left: its configuration if renamed, else the same as this backup |
| `ConfigStoreSpec.BackupsAreNeverOverwritten` | crates/mediaservo-host/src/translate.rs:209-214 | in crash-only runs no backup is written twice |
| `ConfigStore.ConfigDir.RecoverVersion` | crates/mediaservo-host/src/translate.rs:194-206 | the largest version with a backup, 0 without any |
| `ConfigStore.ConfigDir.BackupHostConfig` | crates/mediaservo-host/src/translate.rs:209-214 | the current host.toml under the new version |
| `ConfigStore.ConfigDir.WriteHost` | crates/mediaservo-host/src/translate.rs:174-178 | temporary file, then rename |
| `ConfigStore.ConfigDir.WriteOxfile` | crates/mediaservo-host/src/translate.rs:181-190 | the translation, through a temporary file |
| `ConfigStore.ConfigDir.HandlePush` | crates/mediaservo-host/src/translate.rs:339-366 | rejected with no file touched, or backup, host.toml and oxfile all written |
| `ConfigStore.UninterruptedPush` | crates/mediaservo-host/src/translate.rs:218-224 | the method's result is that of the six steps with nothing in between |
| `FrameStream.StepKeepsWake` | crates/mediaservo-link/src/frame.rs:93-102 | every step keeps every sleeping receiver owed its notification |
| `FrameStream.NoLostWakeup` | crates/mediaservo-link/src/frame.rs:142-155 | a parked, un-notified receiver with a frame or the shutdown waiting is about to be notified by its producer |
| `FrameStream.NobodySleepsOnAFrame` | crates/mediaservo-link/src/frame.rs:142-155 | with all producers done, every parked receiver that has something to return can wake |
| `FrameStream.TakesTheNewestOnce` | crates/mediaservo-link/src/frame.rs:147-149 | a receiver takes the newest frame stored, and no frame is taken twice |
| `FrameStream.NoneOnlyAfterShutdown` | crates/mediaservo-link/src/frame.rs:150-152 | no result without a frame before the shutdown |
| `FrameStream.ShutdownLeavesAFrameExactly` | crates/mediaservo-link/src/frame.rs:147-152 | a receiver ends without the frame that lies in the slot if and only if that was delivered after its look and nobody took it |
| `FrameStream.ShutdownCanLeaveAFrame` | crates/mediaservo-link/src/frame.rs:147-152 | such a run |
| `StreamSlot.StreamInner.Deliver` | crates/mediaservo-link/src/frame.rs:93-96 | the slot holds the new frame and all waiters are notified |
| `StreamSlot.StreamInner.Shutdown` | crates/mediaservo-link/src/frame.rs:99-102 | closed, and all waiters notified |
| `StreamSlot.StreamInner.Turn` | crates/mediaservo-link/src/frame.rs:142-155 | one turn of the receive loop: the frame, the end, or parked |
| `StreamSlot.UninterruptedDelivery` | crates/mediaservo-link/src/frame.rs:93-102 | store and notify with nothing in between |
| `StreamSlot.UninterruptedTurn` | crates/mediaservo-link/src/frame.rs:142-155 | register, look and check with nothing in between |
| `FrameMeta.Encode` | crates/mediaservo-link/src/frame.rs:31-43 | the filled 36-byte buffer is the header's layout |
| `FrameMeta.LayoutPieces` | crates/mediaservo-link/src/frame.rs:26-43 | which field lies at which of the 36 bytes |
| `FrameMeta.DecodeUndoesEncode` | crates/mediaservo-link/src/frame.rs:31-63 | every header survives, whatever follows it on the wire |
| `FrameMeta.EncodeUndoesDecodeExactly` | crates/mediaservo-link/src/frame.rs:31-63 | the bytes come back if and only if there are 36, the flag byte is 0 or 1 and the reserved byte is 0 |
| `Emergency.CountsAreOneToN` | crates/mediaservo-host/src/emergency.rs:119 | n interleaved triggers return the counts 1..n, each once |
| `Emergency.ExactlyOneArms` | crates/mediaservo-host/src/emergency.rs:120 | exactly one of them reports arming the latch |
| `Emergency.OneAuditLineEach` | crates/mediaservo-host/src/emergency.rs:89-111 | a trigger has one audit line with its own values if its append succeeded, and none otherwise |
| `Emergency.LatchNeverClears` | crates/mediaservo-host/src/emergency.rs:120 | once set the latch stays set |
| `Emergency.ArmsExactlyWhenFirstToSwap` | crates/mediaservo-host/src/emergency.rs:120 | in any run, a trigger about to swap arms if and only if no trigger has swapped yet |
| `Emergency.CountOneArmsExactly` | crates/mediaservo-host/src/emergency.rs:119-120 | in any run, the trigger that drew count 1 is the one that arms if and only if the first swap is made by the first to count |
| `Emergency.SequentialTriggersArmInOrder` | crates/mediaservo-host/src/emergency.rs:114-138 | when no trigger starts while another is under way, count 1 arms and nothing else does |
| `Emergency.ArmingNeedNotCountFirst` | crates/mediaservo-host/src/emergency.rs:119-120 | two interleaved triggers of which the one with count 2 arms |
| `EmergencyActuator.StubEmergencyActuator.Trigger` | crates/mediaservo-host/src/emergency.rs:114-138 | count, latch, one audit line, and what is returned of them |
| `EmergencyActuator.UninterruptedTrigger` | crates/mediaservo-host/src/emergency.rs:114-138 | the method's result is that of its three atomic steps with nothing in between |
| `Bytes.LittleEndianRoundTrip` | crates/mediaservo-link/src/token.rs:128-130 | an integer cut to n bytes is read back if and only if it fits |
| `Bytes.FromLittleEndianRoundTrip` | crates/mediaservo-link/src/token.rs:145-151 | bytes read as an integer are written back the same |
| `Token.Encode` | crates/mediaservo-link/src/token.rs:122-133 | the appended bytes are the file's layout, lengths cut to 16 bits |
| `Token.LayoutPieces` | crates/mediaservo-link/src/token.rs:101-109 | `MSTK`, version 1, then two length-prefixed parts, at their offsets |
| `Token.AcceptedFilesAreEncodings` | crates/mediaservo-link/src/token.rs:137-161 | whatever is accepted is the encoding of what it decodes to |
| `Token.RoundTripExactly` | crates/mediaservo-link/src/token.rs:122-161 | decoding undoes encoding if and only if both lengths fit 16 bits and the token verifies |
| `Token.DecodeIsInjective` | crates/mediaservo-link/src/token.rs:137-161 | no two files decode to the same pair |
| `AnnexB.NextCode` | crates/mediaservo-client/src/engine_adapters.rs:36-41 | the first start code from a position on that leaves three bytes, none in between |
| `AnnexB.NothingVisibleBetween` | crates/mediaservo-client/src/engine_adapters.rs:20-43 | the scan skips no unit it can see |
| `AnnexB.IsKeyframe` | crates/mediaservo-client/src/engine_adapters.rs:46-55 | the loop ends, and is true if and only if a unit visible to the scan is an IDR slice |
| `AnnexB.ReportsAreIdr` | crates/mediaservo-client/src/engine_adapters.rs:46-55 | a reported keyframe has a start code followed by a header byte of type 5 |
| `AnnexB.CompleteWithoutZeroHeaders` | crates/mediaservo-client/src/engine_adapters.rs:46-55 | on streams that begin with a start code and have no zero header byte, true if and only if there is an IDR unit |
| `AnnexB.MissedKeyframes` | crates/mediaservo-client/src/engine_adapters.rs:20-43 | each of the two conditions is needed |

## Left out

- Gateway.Gateway.DrainChannel: says nothing of messages accepted while it runs; the interleaved drain is steps `Drains` and `Drained`.
- Gateway.Gateway.FromServer: that a slot is popped exactly for possible answers is said of statistics messages as the server writes them (one id, with a kind); any other is popped for as well.
- Oxfile.WriteApps: the command lines, paths and other settings of an entry are not modelled, only name and restart policy.
- Oxfile.Validate: parsing of TOML, of signalling and of record settings is outside; a configuration here is a parsed one, and refusal texts are reduced to kind and id.
- ConfigStore.ConfigDir.RecoverVersion: backups are keyed by version, so parsing a version from a file name is not modelled.
- ConfigStoreSpec.AppliedVersionsIncrease: assumes no error return after the rename; `FailingLetsVersionsRegressExactlyAfterTheRename` shows that this is the exact condition.
- Sfu.SfuManager.CreateWebRtcTransport: failures of the media worker and the timeout around the call are the operation `Abandons`, not results of the method.
- Sfu.SfuManager.Produce: invalid media parameters and mediasoup failures, which change nothing, are not modelled.
- Sessions.SignalingServer.EndSession: the leave broadcast, the audit log and the SFU cleanup (keyed by another id than the transports) are not modelled.
- FrameStream and Emergency: runs are over values with one step per atomic action; memory ordering and the lock around the slot or file are what makes the actions atomic and are not modelled.
- GatewaySystem: a child's outgoing queue that refuses a message, events lost before the session's events are subscribed to, and lag of the event broadcast.
- Local answers to joins, and to requests while disconnected, are in `Gateway.Gateway.Envelope` but not in the delivery history of the step system.
- Integer widths: connection ids, trigger counts and versions are unbounded, 64-bit wrap-around is not modelled.
- The agent's own snapshots: source labels, last-message times, session start time.
- Interleaving inside one join or one disconnect, and peer ids that collide.
- Room attributes that membership does not depend on: device, stream, creation time, device listing.
- `pending_messages`, `channels` and `producer_owners`, which the server never prunes.
- SFU consumers, data consumers, statistics and the RTP path.
- Data producers in late-joiner synchronisation, which mirrors that of producers.
- Device authentication, tokens' signatures, expiry and UTF-8 validity (abstract predicates only where the token file needs them).
- Transport: WebSocket, TLS, HTTP, JSON, and the process manager itself.
- Admin REST other than kick and room removal, metrics, health, the pipeline engine, plug-ins and SDP text.
