/** The signalling protocol (protocol.rs) and the gateway's classifiers and room
    rewriting (gateway.rs). Nested JSON payloads are kept as their serialised text. */
module Messages {
  import opened Wrappers

  type Json = string

  datatype PeerRole = Host | Remote | Consumer

  datatype TransportDirection = Send | Recv

  datatype MediaKind = Audio | Video

  datatype Message =
    | RoomJoin(roomId: string, peerRole: PeerRole, streamId: Option<string>,
               deviceId: Option<string>, deviceSecret: Option<string>)
    | RoomJoined(roomId: string, peerId: string)
    | RoomLeave(roomId: string, peerId: string)
    | Sdp(roomId: string, target: Option<string>, sdp: string)
    | RTCIceCandidate(roomId: string, target: Option<string>, candidate: string,
                      sdpMid: Option<string>, sdpMlineIndex: Option<nat>)
    | CreateWebRtcTransport(roomId: string, peerId: string, direction: TransportDirection)
    | WebRtcTransportCreated(roomId: string, peerId: string, transportId: string,
                             iceParameters: Json, dtlsParameters: Json, iceCandidates: Option<Json>)
    | ConnectWebRtcTransport(roomId: string, peerId: string, transportId: string, dtlsParameters: Json)
    | Error(code: nat, text: string)
    | Frame(roomId: string, codec: string, sequence: nat, isKeyframe: bool, dataBase64: string)
    | Produce(roomId: string, peerId: string, direction: TransportDirection, kind: MediaKind,
              rtpParameters: Json, boundTransport: Option<string>)
    | Produced(roomId: string, producerId: string)
    | NewProducer(roomId: string, producerId: string, peerId: string, kind: MediaKind)
    | EncoderStatus(roomId: string, peerId: string, codec: string, stats: Json)
    | StatusReport(reportRoom: string, report: Json)
    | Consume(roomId: string, peerId: string, producerId: string, rtpCapabilities: Json,
              boundTransport: Option<string>)
    | Consumed(roomId: string, consumerId: string, producerId: string, kind: MediaKind, rtpParameters: Json)
    | ConfigPush(pushRoom: string, pushTarget: string, config: string, version: nat)
    | EmergencyCommand(roomId: string, command: string)
    | CreateDataProducer(roomId: string, peerId: string, direction: TransportDirection, channelLabel: string,
                         protocol: string, sctpParameters: Option<Json>, boundTransport: Option<string>)
    | DataProducerCreated(roomId: string, dataProducerId: string)
    | NewDataProducer(roomId: string, dataProducerId: string, peerId: string, channelLabel: string, protocol: string)
    | ConsumeData(roomId: string, peerId: string, direction: TransportDirection, dataProducerId: string,
                  boundTransport: Option<string>)
    | DataConsumed(roomId: string, dataConsumerId: string, dataProducerId: string)
    | SfuStatsRequest(statsProducer: Option<string>, statsConsumer: Option<string>)
    | SfuStats(statsProducer: Option<string>, statsConsumer: Option<string>, statsKind: Option<MediaKind>,
               byteCount: nat, packetCount: nat, score: nat)

  const AUDIO_PREFIX := "audio-"

  /** Audio rooms are named `audio-<vehicle>`; prefix order is Dafny's `<=` on sequences. */
  predicate IsAudioRoom(room: string) {
    AUDIO_PREFIX <= room
  }

  predicate IsSfuRequest(m: Message) {
    m.CreateWebRtcTransport? || m.ConnectWebRtcTransport? || m.Produce? || m.Consume? || m.SfuStatsRequest?
  }

  /** Messages the gateway routes by popping its queue of outstanding requests. */
  predicate IsSfuResponse(m: Message) {
    m.WebRtcTransportCreated? || m.Produced? || m.Consumed? || m.Error? || m.SfuStats?
  }

  predicate IsNegotiation(m: Message) {
    m.Sdp? || m.RTCIceCandidate?
  }

  /** The kinds the server relays to the whole room, the sender included. */
  predicate IsRelay(m: Message) {
    m.Sdp? || m.RTCIceCandidate? || m.Frame? || m.EncoderStatus?
  }

  function MsgRoomId(m: Message): Option<string> {
    if m.RoomJoin? || m.RoomJoined? || m.RoomLeave? || m.Sdp? || m.RTCIceCandidate?
       || m.CreateWebRtcTransport? || m.WebRtcTransportCreated? || m.ConnectWebRtcTransport?
       || m.Frame? || m.Produce? || m.Produced? || m.NewProducer? || m.EncoderStatus?
       || m.Consume? || m.Consumed? || m.CreateDataProducer? || m.DataProducerCreated?
       || m.NewDataProducer? || m.ConsumeData? || m.DataConsumed? || m.EmergencyCommand?
    then Some(m.roomId)
    else None
  }

  /** A message whose own room is an audio room passes unchanged; five kinds are never rewritten. */
  function RewriteRoom(m: Message, room: string): Message {
    var own := MsgRoomId(m);
    if own.Some? && IsAudioRoom(own.value) then m
    else if m.Error? || m.StatusReport? || m.SfuStatsRequest? || m.SfuStats? || m.ConfigPush? then m
    else m.(roomId := room)
  }

  /** The room field alone is replaced: putting the old room back restores the message. */
  lemma RewriteChangesOnlyTheRoom(m: Message, room: string)
    ensures var r := RewriteRoom(m, room);
            var own := MsgRoomId(m);
            && (own.None? ==> r == m)
            && (own.Some? && IsAudioRoom(own.value) ==> r == m)
            && (own.Some? && !IsAudioRoom(own.value) ==>
                  MsgRoomId(r) == Some(room) && r.(roomId := own.value) == m)
  {
  }

  lemma RewriteIsIdempotent(m: Message, room: string)
    ensures RewriteRoom(RewriteRoom(m, room), room) == RewriteRoom(m, room)
  {
  }

  /** Rewriting can touch a message exactly when `MsgRoomId` names a room that is not an audio room. */
  lemma RewriteTouchesExactlyRoutedKinds(m: Message)
    ensures (exists room :: RewriteRoom(m, room) != m)
            <==> (MsgRoomId(m).Some? && !IsAudioRoom(MsgRoomId(m).value))
  {
    var own := MsgRoomId(m);
    if own.Some? && !IsAudioRoom(own.value) {
      var other := if own.value == "" then "x" else "";
      RewriteChangesOnlyTheRoom(m, other);
      assert RewriteRoom(m, other) != m;
    } else {
      forall room
        ensures RewriteRoom(m, room) == m
      {
        RewriteChangesOnlyTheRoom(m, room);
      }
    }
  }

  /** Rewriting never changes what kind of message this is. */
  lemma RewriteKeepsKind(m: Message, room: string)
    ensures var r := RewriteRoom(m, room);
            && IsSfuRequest(r) == IsSfuRequest(m) && IsSfuResponse(r) == IsSfuResponse(m)
            && IsRelay(r) == IsRelay(m) && IsNegotiation(r) == IsNegotiation(m)
            && r.RoomJoin? == m.RoomJoin? && r.RoomLeave? == m.RoomLeave?
  {
  }

  /** What `handle_sfu_message` may send back for each of the five request kinds. */
  predicate Answers(req: Message, resp: Message) {
    match req
    case CreateWebRtcTransport(room, _, _) =>
      resp.Error? || (resp.WebRtcTransportCreated? && resp.roomId == room)
    case ConnectWebRtcTransport(_, _, _, _) =>
      resp.Error?
    case Produce(room, _, direction, _, _, _) =>
      resp.Error? || (resp.Produced? && resp.roomId == room && direction.Send?)
    case Consume(room, _, producer, _, _) =>
      resp.Error? || (resp.Consumed? && resp.roomId == room && resp.producerId == producer)
    case SfuStatsRequest(producer, consumer) =>
      || resp.Error?
      || (&& resp.SfuStats?
          && (producer.Some? || consumer.Some?)
          && resp.statsProducer == producer && resp.statsKind.Some?
          && resp.statsConsumer == (if producer.Some? then None else consumer))
    case _ => false
  }

  lemma AnswersAreResponses(req: Message, resp: Message)
    requires Answers(req, resp)
    ensures IsSfuRequest(req) && IsSfuResponse(resp)
  {
  }

  /** The gateway keeps a slot for a message exactly when the server has an answer for it. */
  lemma RequestsAreTheAnswered(m: Message)
    ensures IsSfuRequest(m) <==> exists resp :: Answers(m, resp)
  {
    if IsSfuRequest(m) {
      assert Answers(m, Error(0, ""));
    }
  }

  /** What `SfuStats` looks like when the server writes it: for one id, and with a kind. */
  predicate WellFormedStats(m: Message) {
    m.SfuStats? ==> m.statsProducer.Some? != m.statsConsumer.Some? && m.statsKind.Some?
  }

  /** The gateway pops a slot for a message exactly when the server may write it as an answer. */
  lemma ResponsesAreTheAnswers(m: Message)
    ensures IsSfuResponse(m) && WellFormedStats(m) <==> exists req :: Answers(req, m)
  {
    if IsSfuResponse(m) && WellFormedStats(m) {
      var req :=
        if m.Error? then SfuStatsRequest(None, None)
        else if m.WebRtcTransportCreated? then CreateWebRtcTransport(m.roomId, "", Send)
        else if m.Produced? then Produce(m.roomId, "", Send, Audio, "", None)
        else if m.Consumed? then Consume(m.roomId, "", m.producerId, "", None)
        else SfuStatsRequest(m.statsProducer, m.statsConsumer);
      assert Answers(req, m);
    }
    if req :| Answers(req, m) {
      AnswersAreResponses(req, m);
    }
  }

  /** What the server sends on to the whole room (signaling.rs). */
  predicate ServerRelays(m: Message) {
    match m
    case Sdp(_, _, _) => true
    case RTCIceCandidate(_, _, _, _, _) => true
    case Frame(_, _, _, _, _) => true
    case EncoderStatus(_, _, _, _) => true
    case _ => false
  }

  /** The gateway looks for echoes among exactly what the server relays. */
  lemma EchoesAreTheRelayed(m: Message)
    ensures IsRelay(m) <==> ServerRelays(m)
    ensures IsNegotiation(m) ==> ServerRelays(m)
  {
  }

  /** All but five kinds name a room, and it is the field of that name; audio rooms are told by their
      first six letters. */
  lemma RoomsByKind(m: Message)
    ensures MsgRoomId(m) == if m.Error? || m.StatusReport? || m.SfuStatsRequest? || m.SfuStats? || m.ConfigPush?
                            then None else Some(m.roomId)
    ensures MsgRoomId(m).Some? ==>
              (IsAudioRoom(m.roomId) <==> |m.roomId| >= 6 && m.roomId[..6] == "audio-")
  {
  }

  /** A request and its answer rewritten on the way back carry the child's own room again,
      exactly when that room is an audio room or the vehicle room is not. */
  lemma RoomRoundTrip(original: Message, vehicleRoom: string, resp: Message, room: string)
    requires MsgRoomId(original) == Some(room)
    requires Answers(RewriteRoom(original, vehicleRoom), resp)
    requires MsgRoomId(resp).Some?
    ensures MsgRoomId(RewriteRoom(resp, room)) == Some(room)
            <==> (IsAudioRoom(room) || !IsAudioRoom(vehicleRoom))
  {
  }
}
