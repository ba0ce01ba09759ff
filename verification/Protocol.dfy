/**
 The signaling messages that the gateway, the controller and the config applier route on.

 Every variant of the wire enum is present.  The variants whose room the gateway reads and rewrites
 are the payloads of `InRoom`; the others stand beside it, so a room carried by `StatusReport`,
 `ConfigPush`, `DownstreamGone` or `DeviceAuthResponse`, which the gateway leaves alone, is an
 ordinary field.  The fields that some branch of the modelled code reads are named; whatever else a
 variant carries is its `body`.
 */
module Protocol {
  import opened Wrappers

  datatype MediaKind = Audio | Video | Data

  datatype Payload =
    | RoomJoin(claim: Option<nat>, body: string)
    | RoomJoined(peerId: string, agreed: Option<nat>, body: string)
    | RoomLeave(body: string)
    | Sdp(body: string)
    | RTCIceCandidate(body: string)
    | CreateWebRtcTransport(body: string)
    | WebRtcTransportCreated(transportId: string, body: string)
    | ConnectWebRtcTransport(body: string)
    | GetRouterRtpCapabilities
    | RouterRtpCapabilities(body: string)
    | SetPreferredLayers(body: string)
    | Frame(body: string)
    | Produce(peerId: string, body: string)
    | Produced(producerId: string)
    | NewProducer(body: string)
    | EncoderStatus(body: string)
    | Consume(body: string)
    | Consumed(body: string)
    | EmergencyCommand(body: string)
    | CreateDataProducer(body: string)
    | DataProducerCreated(dataProducerId: string)
    | NewDataProducer(dataProducerId: string, body: string)
    | ConsumeData(dataProducerId: string, body: string)
    | DataConsumed(dataProducerId: string, streamId: Option<nat>, body: string)
    | ControlAudit(body: string)
    | ProducerClosed(producerId: string, kind: MediaKind, body: string)

  datatype SignalingMessage =
    | InRoom(roomId: string, payload: Payload)
    | Error(code: nat, message: string)
    | StatusReport(reportRoom: string, body: string)
    | ConfigPush(targetRoom: string, target: string, config: string, version: nat)
    | SfuStatsRequest(body: string)
    | SfuStats(body: string)
    | DownstreamGone(gonePeer: string, goneRoom: string)
    | DeviceAuthChallenge(body: string)
    | DeviceAuthResponse(authRoom: string, body: string)
    | DeviceAuthPending(body: string)
}
