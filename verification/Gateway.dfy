/**
 The routing state of the host-agent signaling gateway.

 `Core` is the state behind the gateway's lock as a value; `Upstream`, `Downstream` and their
 neighbours say what each locked operation does to it.  The class `State` is the object the gateway
 updates in place, and every method of it is proved against one of those functions.  The runs of
 the whole gateway (queues, wire, server, reconnects) are in module `GatewayRuns`.
 */
module Gateway {
  import Lines
  import opened Numbers
  import opened Protocol
  import opened Wrappers

  const ERR_GATEWAY_DISCONNECTED: nat := 5001
  const ECHO_CACHE_CAP: nat := 256
  const LO_QUEUE_CAP: nat := 16
  const AUDIO_PREFIX: string := "audio-"

  type ConnId = nat

  datatype Conn = Conn(room: string, src: string, producerKey: Option<(string, string)>)

  datatype Core = Core(
    conns: map<ConnId, Conn>,
    nextId: ConnId,
    pending: seq<ConnId>,
    echoCache: seq<SignalingMessage>,
    vehiclePeerId: string,
    negotiated: nat,
    pendingResume: Option<string>,
    joined: bool,
    vehicleRoom: string,
    pendingConfig: Option<SignalingMessage>)

  datatype Action = Forward(msg: SignalingMessage) | Reply(msg: SignalingMessage) | Drop

  // ---- Message classes ----

  predicate IsSfuRequest(m: SignalingMessage) {
    match m
    case InRoom(_, p) => p.CreateWebRtcTransport? || p.ConnectWebRtcTransport? || p.Produce? || p.Consume?
    case _ => m.SfuStatsRequest?
  }

  /** The messages that take the head of the pending FIFO when they arrive. */
  predicate IsFifoReply(m: SignalingMessage) {
    match m
    case InRoom(_, p) => p.WebRtcTransportCreated? || p.Produced? || p.Consumed?
    case _ => m.Error? || m.SfuStats?
  }

  predicate IsRelay(m: SignalingMessage) {
    m.InRoom? && (m.payload.Sdp? || m.payload.RTCIceCandidate? || m.payload.Frame? || m.payload.EncoderStatus?)
  }

  // ---- Room rewriting ----

  /** A message whose own room is an audio room, or a per-stream room of `room`, is not rewritten. */
  predicate PassesThrough(own: string, room: string) {
    AUDIO_PREFIX <= own || room + "_" <= own
  }

  function RewriteRoom(m: SignalingMessage, room: string): SignalingMessage {
    if !m.InRoom? || PassesThrough(m.roomId, room) then m else m.(roomId := room)
  }

  lemma RewriteIsIdempotent(m: SignalingMessage, room: string)
    ensures RewriteRoom(RewriteRoom(m, room), room) == RewriteRoom(m, room)
  {
  }

  /** The exact condition for the two rewrites, there and back, to cancel out. */
  predicate RoomSurvives(declared: string, vehicle: string) {
    PassesThrough(declared, vehicle) || !PassesThrough(vehicle, declared)
  }

  /**
   A child that declared `declared` sends `m`; the server answers in the room it was asked in; the
   answer is rewritten back for that child.  It names the declared room exactly when `RoomSurvives`.
   */
  lemma RoomRoundTrip(m: SignalingMessage, reply: SignalingMessage, declared: string, vehicle: string)
    requires m.InRoom? && m.roomId == declared
    requires reply.InRoom? && reply.roomId == RewriteRoom(m, vehicle).roomId
    ensures RewriteRoom(reply, declared).roomId == declared <==> RoomSurvives(declared, vehicle)
  {
    NotItsOwnStream(declared);
    if !PassesThrough(declared, vehicle) && PassesThrough(vehicle, declared) {
      assert RewriteRoom(reply, declared).roomId == vehicle;
      if AUDIO_PREFIX <= vehicle {
        assert vehicle != declared;
      } else {
        assert |vehicle| > |declared|;
      }
    }
  }

  lemma NotItsOwnStream(room: string)
    ensures !(room + "_" <= room)
  {
    assert |room + "_"| > |room|;
  }

  /** A room for which the round trip fails: the vehicle room looks like a stream room of the child's. */
  lemma RoomRoundTripCanFail()
    ensures !RoomSurvives("car", "car_7")
    ensures RewriteRoom(RewriteRoom(InRoom("car", Produce("host", "")), "car_7"), "car").roomId == "car_7"
  {
    assert "car" + "_" == "car_";
    assert "car_7"[..4] == "car_";
    assert "car_" <= "car_7";
    assert !("car_7" + "_" <= "car") by { assert |"car_7_"| > |"car"|; }
    assert !(AUDIO_PREFIX <= "car") by { assert |AUDIO_PREFIX| > |"car"|; }
  }

  // ---- Operations on the core ----

  function Disconnected(): SignalingMessage {
    Error(ERR_GATEWAY_DISCONNECTED, "gateway not connected to server")
  }

  function Accept(st: Core): Core {
    st.(conns := st.conns[st.nextId := Conn("", "", None)], nextId := st.nextId + 1)
  }

  function Remember(cache: seq<SignalingMessage>, m: SignalingMessage): seq<SignalingMessage> {
    var grown := cache + [m];
    if |grown| > ECHO_CACHE_CAP then grown[1..] else grown
  }

  function SetRoom(conns: map<ConnId, Conn>, id: ConnId, room: string): map<ConnId, Conn> {
    if id in conns then conns[id := conns[id].(room := room)] else conns
  }

  function SetSrc(conns: map<ConnId, Conn>, id: ConnId, src: string): map<ConnId, Conn> {
    if id in conns then conns[id := conns[id].(src := src)] else conns
  }

  function NoteProducer(conns: map<ConnId, Conn>, id: ConnId, m: SignalingMessage): map<ConnId, Conn> {
    if m.InRoom? && m.payload.Produce? && id in conns
    then conns[id := conns[id].(producerKey := Some((m.payload.peerId, m.roomId)))]
    else conns
  }

  function Upstream(st0: Core, id: ConnId, m: SignalingMessage): (Core, Action) {
    var st := st0.(conns := NoteProducer(st0.conns, id, m));
    if m.InRoom? && m.payload.RoomJoin? then
      (st.(conns := SetRoom(st.conns, id, m.roomId)),
       if st.joined then
         var claim := if m.payload.claim.Some? then m.payload.claim.value else 1;
         Reply(InRoom(m.roomId, RoomJoined(st.vehiclePeerId, Some(Min(claim, st.negotiated)), "")))
       else Reply(Disconnected()))
    else if m.InRoom? && m.payload.RoomLeave? then (st, Drop)
    else if m.InRoom? && m.payload.EncoderStatus? then (st, if st.joined then Forward(m) else Reply(Disconnected()))
    else if !st.joined then (st, Reply(Disconnected()))
    else
      var out := RewriteRoom(m, st.vehicleRoom);
      (st.(pending := if IsSfuRequest(out) then st.pending + [id] else st.pending,
           echoCache := if IsRelay(out) then Remember(st.echoCache, out) else st.echoCache),
       Forward(out))
  }

  /** Where a server message goes when it is not an echo: target connections, each with its own rewrite. */
  function Routing(st: Core, m: SignalingMessage): map<ConnId, SignalingMessage> {
    if IsFifoReply(m) then
      if st.pending != [] && st.pending[0] in st.conns
      then map[st.pending[0] := RewriteRoom(m, st.conns[st.pending[0]].room)]
      else map[]
    else if m.InRoom? && (m.payload.Sdp? || m.payload.RTCIceCandidate?) then
      var out := RewriteRoom(m, st.vehicleRoom);
      map id | id in st.conns && st.conns[id].room == out.roomId :: out
    else if m.ConfigPush? then map[]
    else map id | id in st.conns :: RewriteRoom(m, st.conns[id].room)
  }

  predicate IsEcho(st: Core, m: SignalingMessage) {
    IsRelay(m) && m in st.echoCache
  }

  predicate ForThisVehicle(st: Core, m: SignalingMessage) {
    m.ConfigPush? && m.targetRoom == st.vehicleRoom && m.target == st.vehiclePeerId
  }

  function Downstream(st: Core, m: SignalingMessage): (Core, map<ConnId, SignalingMessage>) {
    if IsEcho(st, m) then (st, map[])
    else
      (if IsFifoReply(m) && st.pending != [] then st.(pending := st.pending[1..])
       else if ForThisVehicle(st, m) then st.(pendingConfig := Some(m))
       else st,
       Routing(st, m))
  }

  function RemoveConn(st: Core, id: ConnId): Core {
    st.(conns := st.conns - {id})
  }

  function ResetRemote(st: Core): Core {
    st.(joined := false, pending := [], echoCache := [], vehiclePeerId := "", negotiated := 1, pendingResume := None)
  }

  function Join(st: Core, peer: string, negotiated: nat, nonce: Option<string>): Core {
    st.(joined := true, vehiclePeerId := peer, negotiated := negotiated, pendingResume := nonce)
  }

  /** `pop_back`: nothing happens to an empty queue. */
  function WithoutLast(pending: seq<ConnId>): seq<ConnId> {
    if pending == [] then [] else pending[..|pending| - 1]
  }

  /** Rolling back after a forwarded message gives the FIFO back exactly for an SFU request or an empty FIFO. */
  lemma RollbackRestores(st: Core, id: ConnId, m: SignalingMessage)
    ensures var (core, action) := Upstream(st, id, m);
            action.Forward? ==> (WithoutLast(core.pending) == st.pending <==> IsSfuRequest(m) || st.pending == [])
  {
    var (core, action) := Upstream(st, id, m);
    if action.Forward? {
      assert IsSfuRequest(action.msg) <==> IsSfuRequest(m);
      if IsSfuRequest(m) {
        assert core.pending == st.pending + [id];
        assert WithoutLast(core.pending) == st.pending;
      } else {
        assert core.pending == st.pending;
        assert st.pending != [] ==> |WithoutLast(st.pending)| < |st.pending|;
      }
    }
  }

  // ---- What the operations do, in the terms of the protocol ----

  /** The five requests, each with the answer the server gives when it grants it. */
  predicate RequestAndAnswer(m: SignalingMessage, r: SignalingMessage) {
    || (m.InRoom? && m.payload.CreateWebRtcTransport? && r.InRoom? && r.payload.WebRtcTransportCreated?)
    || (m.InRoom? && m.payload.ConnectWebRtcTransport? && r.Error?)
    || (m.InRoom? && m.payload.Produce? && r.InRoom? && r.payload.Produced?)
    || (m.InRoom? && m.payload.Consume? && r.InRoom? && r.payload.Consumed?)
    || (m.SfuStatsRequest? && r.SfuStats?)
  }

  ghost predicate IsAnswered(m: SignalingMessage) {
    exists r :: RequestAndAnswer(m, r)
  }

  lemma AnsweredKinds(m: SignalingMessage)
    ensures IsAnswered(m) <==>
            m.SfuStatsRequest?
            || (m.InRoom? && (m.payload.CreateWebRtcTransport? || m.payload.ConnectWebRtcTransport?
                              || m.payload.Produce? || m.payload.Consume?))
  {
    if m.SfuStatsRequest? {
      assert RequestAndAnswer(m, SfuStats(""));
    } else if m.InRoom? {
      assert m.payload.CreateWebRtcTransport? ==> RequestAndAnswer(m, InRoom("", WebRtcTransportCreated("", "")));
      assert m.payload.ConnectWebRtcTransport? ==> RequestAndAnswer(m, Error(0, ""));
      assert m.payload.Produce? ==> RequestAndAnswer(m, InRoom("", Produced("")));
      assert m.payload.Consume? ==> RequestAndAnswer(m, InRoom("", Consumed("")));
    }
  }

  /** A child that asks while nobody waits gets the answer, be it the grant or an error, and nobody else does. */
  lemma RequestGetsItsAnswer(st: Core, id: ConnId, m: SignalingMessage, r: SignalingMessage)
    requires st.joined && st.pending == [] && id in st.conns
    requires RequestAndAnswer(m, r) || (IsAnswered(m) && r.Error?)
    ensures var (sent, action) := Upstream(st, id, m);
            var (answered, targets) := Downstream(sent, r);
            && action.Forward? && sent.pending == [id]
            && targets.Keys == {id} && answered == sent.(pending := [])
  {
    AnsweredKinds(m);
    var sent := Upstream(st, id, m).0;
    assert sent.pending == [id] && sent.conns.Keys == st.conns.Keys;
  }

  /** Exactly the requests that are answered wait for an answer, at the end of the FIFO and only in a session. */
  lemma RequestsWaitInLine(st: Core, id: ConnId, m: SignalingMessage)
    ensures Upstream(st, id, m).0.pending == st.pending + (if st.joined && IsAnswered(m) then [id] else [])
  {
    AnsweredKinds(m);
  }

  /** The rooms that are the children's own: audio rooms, and stream rooms of the given room. */
  ghost predicate OwnRoom(own: string, room: string) {
    (exists x :: own == "audio-" + x) || (exists x :: own == room + "_" + x)
  }

  lemma OwnRoomsPassThrough(own: string, room: string)
    ensures PassesThrough(own, room) <==> OwnRoom(own, room)
  {
    Lines.PrefixIs("audio-", own);
    Lines.PrefixIs(room + "_", own);
  }

  /** Rewriting changes the room alone, and that of no audio or stream room. */
  lemma RewriteMovesTheRest(m: SignalingMessage, room: string)
    ensures !m.InRoom? ==> RewriteRoom(m, room) == m
    ensures m.InRoom? ==> RewriteRoom(m, room) == InRoom(if OwnRoom(m.roomId, room) then m.roomId else room, m.payload)
  {
    if m.InRoom? {
      OwnRoomsPassThrough(m.roomId, room);
    }
  }

  /** An offer, answer or candidate goes to exactly the children in its room, under the room they declared. */
  lemma NegotiationStaysInItsRoom(st: Core, m: SignalingMessage)
    requires m.InRoom? && (m.payload.Sdp? || m.payload.RTCIceCandidate?) && m !in st.echoCache
    ensures var (core, targets) := Downstream(st, m);
            var room := if OwnRoom(m.roomId, st.vehicleRoom) then m.roomId else st.vehicleRoom;
            && core == st
            && (forall id :: id in targets <==> id in st.conns && st.conns[id].room == room)
            && (forall id :: id in targets ==> targets[id] == InRoom(st.conns[id].room, m.payload))
  {
    RewriteMovesTheRest(m, st.vehicleRoom);
  }

  /** Neither an answer, nor negotiation, nor a configuration push. */
  predicate IsAnnouncement(m: SignalingMessage) {
    && !m.Error? && !m.SfuStats? && !m.ConfigPush?
    && (m.InRoom? ==> !m.payload.WebRtcTransportCreated? && !m.payload.Produced? && !m.payload.Consumed?
                      && !m.payload.Sdp? && !m.payload.RTCIceCandidate?)
  }

  /** Anything else the server sends reaches every child, in the room the child declared. */
  lemma AnnouncementReachesEveryone(st: Core, m: SignalingMessage)
    requires IsAnnouncement(m) && m !in st.echoCache
    ensures var (core, targets) := Downstream(st, m);
            && core == st && targets.Keys == st.conns.Keys
            && (forall id :: id in targets ==>
                 targets[id] == if !m.InRoom? || OwnRoom(m.roomId, st.conns[id].room) then m
                                else InRoom(st.conns[id].room, m.payload))
  {
    forall id | id in st.conns
      ensures RewriteRoom(m, st.conns[id].room)
              == if !m.InRoom? || OwnRoom(m.roomId, st.conns[id].room) then m else InRoom(st.conns[id].room, m.payload)
    {
      RewriteMovesTheRest(m, st.conns[id].room);
    }
  }

  /** A configuration push reaches no child; it is kept exactly when it names this room and this vehicle. */
  lemma ConfigIsForTheAgent(st: Core, room: string, target: string, config: string, version: nat)
    ensures var push := ConfigPush(room, target, config, version);
            var (core, targets) := Downstream(st, push);
            && targets == map[]
            && core == st.(pendingConfig := if room == st.vehicleRoom && target == st.vehiclePeerId then Some(push)
                                            else st.pendingConfig)
  {
  }

  /** What was forwarded to be relayed is swallowed when it comes back; nothing else of the session is. */
  lemma RelayedMessageDoesNotReturn(st: Core, id: ConnId, m: SignalingMessage)
    requires st.joined && m.InRoom? && (m.payload.Sdp? || m.payload.RTCIceCandidate? || m.payload.Frame?)
    ensures var (sent, action) := Upstream(st, id, m);
            && action.Forward? && Downstream(sent, action.msg) == (sent, map[])
            && (forall x :: x in sent.echoCache ==> x in st.echoCache || x == action.msg)
  {
    var (sent, action) := Upstream(st, id, m);
    var grown := st.echoCache + [action.msg];
    assert grown[|grown| - 1] == action.msg;
    if |grown| > ECHO_CACHE_CAP {
      assert grown[1..][|grown| - 2] == action.msg;
    }
  }

  /** No other message enters the echo cache. */
  lemma OnlyRelaysAreRemembered(st: Core, id: ConnId, m: SignalingMessage)
    requires !(m.InRoom? && (m.payload.Sdp? || m.payload.RTCIceCandidate? || m.payload.Frame?))
    ensures Upstream(st, id, m).0.echoCache == st.echoCache
  {
  }

  /** Without a session nothing is forwarded and nothing waits; every message but a leave is answered with an error. */
  lemma NothingLeavesWithoutASession(st: Core, id: ConnId, m: SignalingMessage)
    requires !st.joined
    ensures var (core, action) := Upstream(st, id, m);
            && core == st.(conns := core.conns) && core.conns.Keys == st.conns.Keys
            && (action.Drop? <==> m.InRoom? && m.payload.RoomLeave?)
            && (!action.Drop? ==> action.Reply? && action.msg.Error? && action.msg.code == 5001)
  {
  }

  /**
   A child's join is answered by the gateway: its room is recorded, and once the gateway has joined, it
   is told the vehicle's identity and a protocol that both it and the server can speak.
   */
  lemma JoinIsAnsweredHere(st: Core, peer: string, negotiated: nat, nonce: Option<string>, id: ConnId,
                           room: string, claim: Option<nat>, body: string)
    requires id in st.conns
    ensures var (core, action) := Upstream(Join(st, peer, negotiated, nonce), id, InRoom(room, RoomJoin(claim, body)));
            var asked := if claim.None? then 1 else claim.value;
            && core.conns == st.conns[id := st.conns[id].(room := room)]
            && core == Join(st, peer, negotiated, nonce).(conns := core.conns)
            && action.Reply? && action.msg.InRoom? && action.msg.roomId == room && action.msg.payload.RoomJoined?
            && action.msg.payload.peerId == peer && action.msg.payload.agreed.Some?
            && var agreed := action.msg.payload.agreed.value;
               agreed <= asked && agreed <= negotiated && (agreed == asked || agreed == negotiated)
  {
  }

  /** Encoder status keeps its room, a leave goes nowhere, and any other message is moved to the vehicle's room. */
  lemma OthersAreForwarded(st: Core, id: ConnId, m: SignalingMessage)
    requires st.joined && (m.InRoom? ==> !m.payload.RoomJoin?)
    ensures var action := Upstream(st, id, m).1;
            && (m.InRoom? && m.payload.RoomLeave? ==> action == Drop)
            && (m.InRoom? && m.payload.EncoderStatus? ==> action == Forward(m))
            && (m.InRoom? && !m.payload.RoomLeave? && !m.payload.EncoderStatus? ==>
                action == Forward(InRoom(if OwnRoom(m.roomId, st.vehicleRoom) then m.roomId else st.vehicleRoom,
                                         m.payload)))
            && (!m.InRoom? ==> action == Forward(m))
  {
    RewriteMovesTheRest(m, st.vehicleRoom);
  }

  /** A session lost and regained: the children, their rooms and a waiting configuration push outlive it. */
  lemma ChildrenOutliveTheSession(st: Core, peer: string, negotiated: nat, nonce: Option<string>)
    ensures var next := Join(ResetRemote(st), peer, negotiated, nonce);
            && next.conns == st.conns && next.nextId == st.nextId && next.vehicleRoom == st.vehicleRoom
            && next.pendingConfig == st.pendingConfig
            && next.joined && next.pending == [] && next.echoCache == []
            && next.vehiclePeerId == peer && next.negotiated == negotiated && next.pendingResume == nonce
    ensures var lost := ResetRemote(st);
            !lost.joined && lost.vehiclePeerId == "" && lost.negotiated == 1 && lost.pendingResume == None
  {
  }

  /** A new connection has a number of its own, and no room, source or producer until it sends. */
  lemma NewChildIsNobody(st: Core)
    requires forall c :: c in st.conns ==> c < st.nextId
    ensures var next := Accept(st);
            && next.conns.Keys == st.conns.Keys + {st.nextId} && st.nextId !in st.conns
            && next.conns[st.nextId].room == "" && next.conns[st.nextId].src == ""
            && next.conns[st.nextId].producerKey == None
            && (forall c :: c in st.conns ==> next.conns[c] == st.conns[c])
            && (forall c :: c in next.conns ==> c < next.nextId)
  {
  }

  /** A message notes where its connection says it comes from, and touches no other connection. */
  lemma SourceIsNoted(conns: map<ConnId, Conn>, id: ConnId, src: string)
    requires id in conns
    ensures var noted := SetSrc(conns, id, src);
            && noted.Keys == conns.Keys && noted[id].src == src
            && noted[id].room == conns[id].room && noted[id].producerKey == conns[id].producerKey
            && (forall c :: c in conns && c != id ==> noted[c] == conns[c])
  {
  }

  // ---- The objects the gateway updates ----

  /** The two queues and the drop count, as values. */
  datatype Queues = Queues(hi: seq<SignalingMessage>, lo: seq<SignalingMessage>, dropped: nat, open: bool)

  function Pushed(q: Queues, m: SignalingMessage): Queues {
    if m.StatusReport? then
      if q.open && |q.lo| < LO_QUEUE_CAP then q.(lo := q.lo + [m]) else q.(dropped := q.dropped + 1)
    else if q.open then q.(hi := q.hi + [m])
    else q
  }

  predicate InTheirQueues(q: Queues) {
    && |q.lo| <= 16
    && (forall i :: 0 <= i < |q.lo| ==> q.lo[i].StatusReport?)
    && (forall i :: 0 <= i < |q.hi| ==> !q.hi[i].StatusReport?)
  }

  /**
   Each message is queued behind those of its class or, if it is a status report and 16 are waiting,
   counted as dropped; the queue of all other messages is never full.
   */
  lemma PushKeepsClasses(q: Queues, m: SignalingMessage)
    requires InTheirQueues(q) && q.open
    ensures var r := Pushed(q, m);
            && InTheirQueues(r)
            && |r.hi| + |r.lo| + r.dropped == |q.hi| + |q.lo| + q.dropped + 1
            && (r.dropped > q.dropped <==> m.StatusReport? && |q.lo| == 16)
            && q.hi <= r.hi && q.lo <= r.lo && (r.dropped == q.dropped ==> m in r.hi[|q.hi|..] + r.lo[|q.lo|..])
  {
    var r := Pushed(q, m);
    if r.dropped == q.dropped {
      var added := r.hi[|q.hi|..] + r.lo[|q.lo|..];
      assert added[0] == m;
    }
  }

  /** Dual upstream queues: `hi` is unbounded, `lo` holds only status reports and drops when full. */
  class UpstreamQueue {
    var hi: seq<SignalingMessage>
    var lo: seq<SignalingMessage>
    var dropped: nat
    var open: bool

    ghost function View(): Queues
      reads this
    {
      Queues(hi, lo, dropped, open)
    }

    constructor ()
      ensures View() == Queues([], [], 0, true)
    {
      hi, lo, dropped, open := [], [], 0, true;
    }

    method Push(m: SignalingMessage) returns (ok: bool)
      modifies this
      ensures ok <==> m.StatusReport? || old(open)
      ensures View() == Pushed(old(View()), m)
    {
      if m.StatusReport? {
        if open && |lo| < LO_QUEUE_CAP {
          lo := lo + [m];
        } else {
          dropped := dropped + 1;
        }
        return true;
      }
      if open {
        hi := hi + [m];
      }
      return open;
    }

    /** The two drain loops that follow a lost session, with no producer running in between. */
    method Drain()
      modifies this
      ensures View() == Queues([], [], old(dropped), old(open))
    {
      while hi != []
        invariant dropped == old(dropped) && open == old(open)
        decreases |hi|
      {
        hi := hi[1..];
      }
      while lo != []
        invariant hi == [] && dropped == old(dropped) && open == old(open)
        decreases |lo|
      {
        lo := lo[1..];
      }
    }
  }

  class State {
    var conns: map<ConnId, Conn>
    var nextId: ConnId
    var pending: seq<ConnId>
    var echoCache: seq<SignalingMessage>
    var vehiclePeerId: string
    var negotiated: nat
    var pendingResume: Option<string>
    var joined: bool
    const vehicleRoom: string
    var pendingConfig: Option<SignalingMessage>

    ghost function View(): Core
      reads this
    {
      Core(conns, nextId, pending, echoCache, vehiclePeerId, negotiated, pendingResume, joined, vehicleRoom,
           pendingConfig)
    }

    constructor (room: string)
      ensures View() == Initial(room)
    {
      conns, nextId, pending, echoCache := map[], 1, [], [];
      vehiclePeerId, negotiated, pendingResume, joined := "", 1, None, false;
      vehicleRoom, pendingConfig := room, None;
    }

    method AcceptConn() returns (id: ConnId)
      modifies this
      ensures id == old(nextId) && View() == Accept(old(View()))
    {
      id := nextId;
      nextId := nextId + 1;
      conns := conns[id := Conn("", "", None)];
    }

    method UpstreamMsg(id: ConnId, m: SignalingMessage) returns (action: Action)
      modifies this
      ensures (View(), action) == Upstream(old(View()), id, m)
    {
      if m.InRoom? && m.payload.Produce? && id in conns {
        conns := conns[id := conns[id].(producerKey := Some((m.payload.peerId, m.roomId)))];
      }
      if m.InRoom? && m.payload.RoomJoin? {
        if id in conns {
          conns := conns[id := conns[id].(room := m.roomId)];
        }
        if joined {
          var claim := if m.payload.claim.Some? then m.payload.claim.value else 1;
          action := Reply(InRoom(m.roomId, RoomJoined(vehiclePeerId, Some(Min(claim, negotiated)), "")));
        } else {
          action := Reply(Disconnected());
        }
      } else if m.InRoom? && m.payload.RoomLeave? {
        action := Drop;
      } else if m.InRoom? && m.payload.EncoderStatus? {
        action := if joined then Forward(m) else Reply(Disconnected());
      } else {
        var out := RewriteRoom(m, vehicleRoom);
        if !joined {
          return Reply(Disconnected());
        }
        if IsSfuRequest(out) {
          pending := pending + [id];
        }
        if IsRelay(out) {
          echoCache := echoCache + [out];
          if |echoCache| > ECHO_CACHE_CAP {
            echoCache := echoCache[1..];
          }
        }
        action := Forward(out);
      }
    }

    method DownstreamMsg(m: SignalingMessage) returns (targets: map<ConnId, SignalingMessage>)
      modifies this
      ensures (View(), targets) == Downstream(old(View()), m)
    {
      if IsRelay(m) && m in echoCache {
        return map[];
      }
      if IsFifoReply(m) {
        if pending == [] {
          return map[];
        }
        var id := pending[0];
        pending := pending[1..];
        if id in conns {
          targets := map[id := RewriteRoom(m, conns[id].room)];
        } else {
          targets := map[];
        }
      } else if m.InRoom? && (m.payload.Sdp? || m.payload.RTCIceCandidate?) {
        var out := RewriteRoom(m, vehicleRoom);
        targets := map id | id in conns && conns[id].room == out.roomId :: out;
      } else if m.ConfigPush? {
        targets := map[];
        if m.targetRoom == vehicleRoom && m.target == vehiclePeerId {
          pendingConfig := Some(m);
        }
      } else {
        targets := map id | id in conns :: RewriteRoom(m, conns[id].room);
      }
    }

    method Remove(id: ConnId)
      modifies this
      ensures View() == RemoveConn(old(View()), id)
    {
      conns := conns - {id};
    }

    method Reset()
      modifies this
      ensures View() == ResetRemote(old(View()))
    {
      joined, pending, echoCache := false, [], [];
      vehiclePeerId, negotiated, pendingResume := "", 1, None;
    }

    /**
     The critical section a child's message runs in: note the source, decide, and enqueue, with the
     push onto the pending FIFO and the push onto the queue under one lock.  When the queue is closed
     the last FIFO slot is rolled back; that gives the FIFO back unchanged exactly when the message
     was an SFU request or there was nothing to pop.
     */
    method OnEnvelope(id: ConnId, src: string, m: SignalingMessage, queue: UpstreamQueue)
      returns (reply: Option<SignalingMessage>, closed: bool)
      modifies this, queue
      ensures var (core, action) := Upstream(old(View()).(conns := SetSrc(old(conns), id, src)), id, m);
              && (reply == if action.Reply? then Some(action.msg) else None)
              && (closed <==> action.Forward? && !action.msg.StatusReport? && !old(queue.open))
              && (!closed ==> View() == core)
              && (closed ==> View() == core.(pending := WithoutLast(core.pending)))
              && queue.View() == if action.Forward? then Pushed(old(queue.View()), action.msg) else old(queue.View())
      ensures closed ==> (pending == old(pending) <==> IsSfuRequest(m) || old(pending) == [])
    {
      NoteSource(id, src);
      ghost var noted := View();
      var action := UpstreamMsg(id, m);
      RollbackRestores(noted, id, m);
      reply, closed := None, false;
      match action {
        case Forward(out) =>
          var ok := PushOrRollBack(out, queue);
          closed := !ok;
        case Reply(r) => reply := Some(r);
        case Drop =>
      }
    }

    method NoteSource(id: ConnId, src: string)
      modifies this
      ensures View() == old(View()).(conns := SetSrc(old(conns), id, src))
    {
      if id in conns {
        conns := conns[id := conns[id].(src := src)];
      }
    }

    /** Enqueue a message to forward; when the queue is closed, take the last FIFO slot back. */
    method PushOrRollBack(out: SignalingMessage, queue: UpstreamQueue) returns (ok: bool)
      modifies this, queue
      ensures ok <==> out.StatusReport? || old(queue.open)
      ensures View() == if ok then old(View()) else old(View()).(pending := WithoutLast(old(pending)))
      ensures queue.View() == Pushed(old(queue.View()), out)
    {
      ok := queue.Push(out);
      if !ok && pending != [] {
        pending := pending[..|pending| - 1];
      }
    }
  }

  function Initial(room: string): Core {
    Core(map[], 1, [], [], "", 1, None, false, room, None)
  }
}
