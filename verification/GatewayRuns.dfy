/**
 Every run of the gateway: children, the two upstream queues, the one server session and its breaks.

 A step is one critical section or one channel operation of the program, so a list of steps is one
 interleaving.  The state carries history beside the program's own variables: the SFU requests of
 the current session are numbered in the order they entered the pending FIFO (`asked[k]` is the
 connection that sent request k, `sent[k]` what it sent), and queued items and server messages carry
 the number they belong to.  The program never reads the numbers; they are what the results are stated in.
 */
module GatewayRuns {
  import opened Gateway
  import opened Numbers
  import opened Protocol
  import opened Wrappers

  /** A message on its way to the server; `slot` is its request number if it is an SFU request. */
  datatype Item = Item(msg: SignalingMessage, slot: nat)

  /** A message from the server; `answers` is the number of the request it answers, if any. */
  datatype Event = Event(msg: SignalingMessage, answers: Option<nat>)

  /**
   A message handed to a child; `requester` is the connection whose request it answers, if any, and
   `request` the number of that request in its session.
   */
  datatype Delivery = Delivery(
    conn: ConnId, msg: SignalingMessage, requester: Option<ConnId>, session: nat, request: Option<nat>)

  /** Online: a session is running.  Broken: it ended, nothing is reset yet.  Then the two drains. */
  datatype Phase = Online | Broken | DrainingHi | DrainingLo | Offline

  datatype System = System(
    core: Core,
    phase: Phase,
    hi: seq<Item>,
    lo: seq<SignalingMessage>,
    wire: seq<Item>,
    events: seq<Event>,
    outbox: map<ConnId, Delivery>,
    delivered: seq<Delivery>,
    session: nat,
    asked: seq<ConnId>,
    sent: seq<SignalingMessage>,
    popped: nat,
    answered: nat,
    relayed: seq<SignalingMessage>)

  datatype Step =
    | AcceptChild
    | ChildSends(conn: ConnId, src: string, msg: SignalingMessage)
    | AgentSends(msg: SignalingMessage)
    | ReportGone(conn: ConnId)
    | CloseChild(conn: ConnId)
    | DequeueHi
    | DequeueLo
    | ServerTakes(reply: Option<SignalingMessage>)
    | ServerSends(msg: SignalingMessage)
    | RouteNext
    | LoseNext
    | DeliverTo(conn: ConnId)
    | BreakSession
    | ResetState
    | DrainHi
    | DrainHiDone
    | DrainLo
    | DrainLoDone
    | Rejoin(peer: string, negotiated: nat, nonce: Option<string>)

  predicate Enabled(s: System, step: Step) {
    match step
    case AcceptChild => true
    case ChildSends(c, _, _) => c in s.core.conns
    // the agent reports its own status through the same queue; it never asks for SFU resources
    case AgentSends(m) => !IsSfuRequest(m)
    case ReportGone(c) => c in s.core.conns && s.core.conns[c].producerKey.Some?
    case CloseChild(c) => c in s.core.conns
    case DequeueHi => s.phase.Online? && s.hi != []
    case DequeueLo => s.phase.Online? && s.lo != []
    // the server reads one message at a time and answers an SFU request exactly once
    case ServerTakes(reply) =>
      s.wire != [] && (IsSfuRequest(s.wire[0].msg) ==> reply.Some? && IsFifoReply(reply.value))
    case ServerSends(_) => s.phase.Online?
    case RouteNext => s.events != [] && s.outbox == map[]
    case LoseNext => s.events != []
    case DeliverTo(c) => c in s.outbox
    case BreakSession => s.phase.Online?
    case ResetState => s.phase.Broken?
    case DrainHi => s.phase.DrainingHi? && s.hi != []
    case DrainHiDone => s.phase.DrainingHi? && s.hi == []
    case DrainLo => s.phase.DrainingLo? && s.lo != []
    case DrainLoDone => s.phase.DrainingLo? && s.lo == []
    case Rejoin(_, _, _) => s.phase.Offline?
  }

  /** `push` on the queues: status reports are dropped at the entry once `lo` is full. */
  function Enqueue(s: System, m: SignalingMessage, slot: nat): System {
    if m.StatusReport? then
      if |s.lo| < LO_QUEUE_CAP then s.(lo := s.lo + [m]) else s
    else s.(hi := s.hi + [Item(m, slot)])
  }

  function ChildStep(s: System, c: ConnId, src: string, m: SignalingMessage): System {
    var (core, action) := Upstream(s.core.(conns := SetSrc(s.core.conns, c, src)), c, m);
    var t := s.(core := core);
    if !action.Forward? then t
    else
      var noted := t.(
        asked := if IsSfuRequest(action.msg) then t.asked + [c] else t.asked,
        sent := if IsSfuRequest(action.msg) then t.sent + [m] else t.sent,
        relayed := if Caches(action.msg) then t.relayed + [action.msg] else t.relayed);
      Enqueue(noted, action.msg, |t.asked|)
  }

  /** The relay messages that the upstream path remembers; encoder status is relayed but not cached. */
  predicate Caches(m: SignalingMessage) {
    IsRelay(m) && !m.payload.EncoderStatus?
  }

  function RouteStep(s: System): System
    requires s.events != []
  {
    var e := s.events[0];
    var (core, targets) := Downstream(s.core, e.msg);
    var requester := if e.answers.Some? && e.answers.value < |s.asked| then Some(s.asked[e.answers.value]) else None;
    s.(core := core,
       events := s.events[1..],
       outbox := map c | c in targets :: Delivery(c, targets[c], requester, s.session, e.answers),
       popped := if IsFifoReply(e.msg) && s.core.pending != [] then s.popped + 1 else s.popped,
       answered := if e.answers.Some? then s.answered + 1 else s.answered)
  }

  /** The event stream lags and skips a message. */
  function LoseStep(s: System): System
    requires s.events != []
  {
    s.(events := s.events[1..], answered := if s.events[0].answers.Some? then s.answered + 1 else s.answered)
  }

  function DequeueStep(s: System): System
    requires s.hi != []
  {
    s.(hi := s.hi[1..], wire := s.wire + [s.hi[0]])
  }

  function Emit(s: System, m: SignalingMessage, answers: Option<nat>): System {
    s.(events := s.events + [Event(m, answers)])
  }

  function Apply(s: System, step: Step): System
    requires Enabled(s, step)
  {
    match step
    case AcceptChild => s.(core := Accept(s.core))
    case ChildSends(c, src, m) => ChildStep(s, c, src, m)
    case AgentSends(m) => if s.core.joined then Enqueue(s, m, 0) else s
    case ReportGone(c) =>
      var key := s.core.conns[c].producerKey.value;
      Enqueue(s, DownstreamGone(key.0, key.1), 0)
    case CloseChild(c) => s.(core := RemoveConn(s.core, c))
    case DequeueHi => DequeueStep(s)
    case DequeueLo => s.(lo := s.lo[1..])
    case ServerTakes(reply) =>
      var taken := s.(wire := s.wire[1..]);
      if reply.None? then taken
      else Emit(taken, reply.value, if IsSfuRequest(s.wire[0].msg) then Some(s.wire[0].slot) else None)
    case ServerSends(m) => Emit(s, m, None)
    case RouteNext => RouteStep(s)
    case LoseNext => LoseStep(s)
    case DeliverTo(c) =>
      s.(outbox := s.outbox - {c},
         delivered := if c in s.core.conns then s.delivered + [s.outbox[c]] else s.delivered)
    case BreakSession => s.(phase := Broken, wire := [], events := [])
    case ResetState =>
      s.(core := ResetRemote(s.core), phase := DrainingHi, session := s.session + 1,
         asked := [], sent := [], popped := 0, answered := 0, relayed := [])
    case DrainHi => s.(hi := s.hi[1..])
    case DrainHiDone => s.(phase := DrainingLo)
    case DrainLo => s.(lo := s.lo[1..])
    case DrainLoDone => s.(phase := Offline)
    case Rejoin(peer, negotiated, nonce) => s.(core := Join(s.core, peer, negotiated, nonce), phase := Online)
  }

  function Start(room: string): System {
    System(Initial(room), Offline, [], [], [], [], map[], [], 0, [], [], 0, 0, [])
  }

  // ---- Runs ----

  predicate Legal(s: System, steps: seq<Step>)
    decreases |steps|, 0
  {
    steps == [] ||
    (Legal(s, steps[..|steps| - 1]) && Enabled(Exec(s, steps[..|steps| - 1]), steps[|steps| - 1]))
  }

  function Exec(s: System, steps: seq<Step>): System
    requires Legal(s, steps)
    decreases |steps|, 1
  {
    if steps == [] then s else Apply(Exec(s, steps[..|steps| - 1]), steps[|steps| - 1])
  }

  // ---- The coupling invariant ----

  function RequestSlots(items: seq<Item>): seq<nat> {
    if items == [] then []
    else (if IsSfuRequest(items[0].msg) then [items[0].slot] else []) + RequestSlots(items[1..])
  }

  function AnswerSlots(events: seq<Event>): seq<nat> {
    if events == [] then []
    else (if events[0].answers.Some? then [events[0].answers.value] else []) + AnswerSlots(events[1..])
  }

  lemma Regroup(a: seq<nat>, b: seq<nat>, c: seq<nat>)
    ensures (a + b) + c == a + (b + c)
  {
  }

  lemma {:induction false} RequestSlotsSnoc(items: seq<Item>, x: Item)
    ensures RequestSlots(items + [x]) == RequestSlots(items) + (if IsSfuRequest(x.msg) then [x.slot] else [])
  {
    if items == [] {
      assert items + [x] == [x];
    } else {
      assert (items + [x])[1..] == items[1..] + [x];
      RequestSlotsSnoc(items[1..], x);
      Regroup(if IsSfuRequest(items[0].msg) then [items[0].slot] else [], RequestSlots(items[1..]),
              if IsSfuRequest(x.msg) then [x.slot] else []);
    }
  }

  lemma {:induction false} AnswerSlotsSnoc(events: seq<Event>, x: Event)
    ensures AnswerSlots(events + [x]) == AnswerSlots(events) + (if x.answers.Some? then [x.answers.value] else [])
  {
    if events == [] {
      assert events + [x] == [x];
    } else {
      assert (events + [x])[1..] == events[1..] + [x];
      AnswerSlotsSnoc(events[1..], x);
      Regroup(if events[0].answers.Some? then [events[0].answers.value] else [], AnswerSlots(events[1..]),
              if x.answers.Some? then [x.answers.value] else []);
    }
  }

  /** The requests still owed an answer, oldest first: answered but unread, on the wire, still queued. */
  function Owed(s: System): seq<nat> {
    AnswerSlots(s.events) + RequestSlots(s.wire) + RequestSlots(s.hi)
  }

  function Range(lo: nat, hi: nat): seq<nat>
    requires lo <= hi
  {
    seq(hi - lo, i => lo + i)
  }

  function LastOf(sent: seq<SignalingMessage>, n: nat): seq<SignalingMessage> {
    if |sent| <= n then sent else sent[|sent| - n..]
  }

  /** Answers to SFU requests are reply-class messages. */
  ghost predicate AnswersAreReplies(events: seq<Event>) {
    forall i :: 0 <= i < |events| && events[i].answers.Some? ==> IsFifoReply(events[i].msg)
  }

  /** `pending` is the owners of the requests not yet popped; outside a session nothing is counted. */
  ghost predicate Books(s: System) {
    && s.popped <= |s.asked|
    && s.core.pending == s.asked[s.popped..]
    && (s.core.joined <==> s.phase.Online? || s.phase.Broken?)
    && (!s.core.joined ==> s.asked == [] && s.relayed == [])
  }

  /** In a session the pipeline holds the requests not yet answered, in order and without gaps. */
  ghost predicate Pipeline(s: System) {
    && s.answered <= |s.asked|
    && (s.phase.Online? ==> Owed(s) == Range(s.answered, |s.asked|))
    && (!s.phase.Online? ==> s.wire == [] && s.events == [])
    && (s.phase.DrainingLo? || s.phase.Offline? ==> RequestSlots(s.hi) == [])
    && AnswersAreReplies(s.events)
  }

  ghost predicate Remembered(cache: seq<SignalingMessage>, relayed: seq<SignalingMessage>) {
    && cache == LastOf(relayed, ECHO_CACHE_CAP)
    && (forall m :: m in relayed ==> Caches(m))
  }

  ghost predicate IdsInUse(conns: set<ConnId>, asked: seq<ConnId>, nextId: ConnId) {
    && (forall c :: c in conns ==> c < nextId)
    && (forall c :: c in asked ==> c < nextId)
  }

  /** The coupling invariant between the FIFO, the queues, the wire and the unread answers. */
  ghost predicate Inv(s: System) {
    && Books(s)
    && Pipeline(s)
    && Remembered(s.core.echoCache, s.relayed)
    && IdsInUse(s.core.conns.Keys, s.asked, s.core.nextId)
  }

  lemma EnqueueKeeps(s: System, m: SignalingMessage, slot: nat)
    ensures var t := Enqueue(s, m, slot);
            && t == s.(hi := t.hi, lo := t.lo)
            && RequestSlots(t.hi) == RequestSlots(s.hi) + (if IsSfuRequest(m) then [slot] else [])
  {
    RequestSlotsSnoc(s.hi, Item(m, slot));
  }

  lemma RememberIsLast(sent: seq<SignalingMessage>, m: SignalingMessage)
    ensures Remember(LastOf(sent, ECHO_CACHE_CAP), m) == LastOf(sent + [m], ECHO_CACHE_CAP)
  {
  }

  /** All that an upstream message can change. */
  lemma UpstreamShape(st: Core, c: ConnId, m: SignalingMessage)
    ensures var (core, action) := Upstream(st, c, m);
            && core == st.(conns := core.conns, pending := core.pending, echoCache := core.echoCache)
            && core.conns.Keys == st.conns.Keys
            && (action.Forward? ==> st.joined)
            && (action.Forward? && IsSfuRequest(action.msg) ==> action.msg == RewriteRoom(m, st.vehicleRoom))
            && (core.pending == if action.Forward? && IsSfuRequest(action.msg) then st.pending + [c] else st.pending)
            && (core.echoCache == if action.Forward? && Caches(action.msg) then Remember(st.echoCache, action.msg)
                                  else st.echoCache)
  {
  }

  /** From `s` to `t`, child `c` asked for nothing, and at most one other message was queued. */
  ghost predicate AsksNothing(s: System, t: System) {
    && t.asked == s.asked && t.sent == s.sent && t.core.pending == s.core.pending
    && RequestSlots(t.hi) == RequestSlots(s.hi)
    && (t.hi == s.hi || exists x :: t.hi == s.hi + [x] && !IsSfuRequest(x.msg))
  }

  /** From `s` to `t`, child `c` sent `m`, and its rewrite took the next slot and was queued under it. */
  ghost predicate AsksOnce(s: System, t: System, c: ConnId, m: SignalingMessage) {
    && s.core.joined && t.asked == s.asked + [c] && t.sent == s.sent + [m] && t.core.pending == s.core.pending + [c]
    && t.hi == s.hi + [Item(RewriteRoom(m, s.core.vehicleRoom), |s.asked|)]
    && RequestSlots(t.hi) == RequestSlots(s.hi) + [|s.asked|]
  }

  /** From `s` to `t`, one message was put into the echo cache, or none. */
  ghost predicate RelaysAtMostOnce(s: System, t: System) {
    || (t.relayed == s.relayed && t.core.echoCache == s.core.echoCache)
    || (s.core.joined && exists x :: Caches(x) && t.relayed == s.relayed + [x]
                                     && t.core.echoCache == Remember(s.core.echoCache, x))
  }

  /** All that a child's message can change. */
  ghost predicate ChildShape(s: System, t: System, c: ConnId, m: SignalingMessage) {
    && t == s.(core := t.core, hi := t.hi, lo := t.lo, asked := t.asked, sent := t.sent, relayed := t.relayed)
    && t.core == s.core.(conns := t.core.conns, pending := t.core.pending, echoCache := t.core.echoCache)
    && t.core.conns.Keys == s.core.conns.Keys
    && (AsksNothing(s, t) || AsksOnce(s, t, c, m))
    && RelaysAtMostOnce(s, t)
  }

  lemma ChildStepShape(s: System, c: ConnId, src: string, m: SignalingMessage)
    ensures ChildShape(s, ChildStep(s, c, src, m), c, m)
  {
    var named := s.core.(conns := SetSrc(s.core.conns, c, src));
    UpstreamShape(named, c, m);
    var (core, action) := Upstream(named, c, m);
    if action.Forward? {
      EnqueueKeeps(s.(core := core,
        asked := if IsSfuRequest(action.msg) then s.asked + [c] else s.asked,
        sent := if IsSfuRequest(action.msg) then s.sent + [m] else s.sent,
        relayed := if Caches(action.msg) then s.relayed + [action.msg] else s.relayed), action.msg, |s.asked|);
    }
  }

  lemma AskKeepsPipeline(s: System, t: System, c: ConnId, m: SignalingMessage)
    requires Inv(s) && ChildShape(s, t, c, m)
    ensures Books(t) && Pipeline(t)
  {
    if t.asked != s.asked && s.phase.Online? {
      assert Owed(t) == Owed(s) + [|s.asked|];
      assert Range(s.answered, |s.asked| + 1) == Range(s.answered, |s.asked|) + [|s.asked|];
    }
  }

  lemma RelayKeepsCache(s: System, t: System)
    requires Remembered(s.core.echoCache, s.relayed) && RelaysAtMostOnce(s, t)
    ensures Remembered(t.core.echoCache, t.relayed)
  {
    if t.relayed != s.relayed {
      RememberIsLast(s.relayed, t.relayed[|s.relayed|]);
    }
  }

  lemma ChildStepKeeps(s: System, t: System, c: ConnId, m: SignalingMessage)
    requires Inv(s) && ChildShape(s, t, c, m) && c in s.core.conns
    ensures Inv(t)
  {
    AskKeepsPipeline(s, t, c, m);
    RelayKeepsCache(s, t);
  }

  lemma OwedHead(s: System)
    requires Inv(s) && s.events != [] && s.events[0].answers.Some?
    ensures s.events[0].answers == Some(s.answered) && s.answered < |s.asked|
    ensures AnswerSlots(s.events[1..]) + RequestSlots(s.wire) + RequestSlots(s.hi) == Range(s.answered + 1, |s.asked|)
  {
    assert Owed(s)[0] == s.events[0].answers.value;
    assert Range(s.answered, |s.asked|)[1..] == Range(s.answered + 1, |s.asked|);
    assert AnswerSlots(s.events[1..]) + RequestSlots(s.wire) + RequestSlots(s.hi) == Owed(s)[1..];
  }

  /** Answering the first item on the wire moves its number, if it has one, to the answers. */
  lemma OwedMoves(s: System, m: SignalingMessage, tag: Option<nat>)
    requires s.wire != []
    requires tag == if IsSfuRequest(s.wire[0].msg) then Some(s.wire[0].slot) else None
    ensures Owed(Emit(s.(wire := s.wire[1..]), m, tag)) == Owed(s)
  {
    var head := if IsSfuRequest(s.wire[0].msg) then [s.wire[0].slot] else [];
    var answers, wire := AnswerSlots(s.events), RequestSlots(s.wire[1..]);
    assert RequestSlots(s.wire) == head + wire;
    AnswerSlotsSnoc(s.events, Event(m, tag));
    Regroup(answers, head, wire);
  }

  lemma TakeKeeps(s: System, m: SignalingMessage, tag: Option<nat>)
    requires Inv(s) && s.wire != [] && (IsSfuRequest(s.wire[0].msg) ==> IsFifoReply(m))
    requires tag == if IsSfuRequest(s.wire[0].msg) then Some(s.wire[0].slot) else None
    ensures Inv(Emit(s.(wire := s.wire[1..]), m, tag))
  {
    OwedMoves(s, m, tag);
    MoreReplies(s.events, Event(m, tag));
  }

  lemma MoreReplies(events: seq<Event>, e: Event)
    requires AnswersAreReplies(events) && (e.answers.Some? ==> IsFifoReply(e.msg))
    ensures AnswersAreReplies(events + [e])
  {
  }

  lemma IgnoreKeeps(s: System)
    requires Inv(s) && s.wire != [] && !IsSfuRequest(s.wire[0].msg)
    ensures Inv(s.(wire := s.wire[1..]))
  {
    assert Owed(s.(wire := s.wire[1..])) == Owed(s);
  }

  lemma SendKeeps(s: System, m: SignalingMessage)
    requires Inv(s) && s.phase.Online?
    ensures Inv(Emit(s, m, None))
  {
    AnswerSlotsSnoc(s.events, Event(m, None));
  }

  lemma DequeueKeeps(s: System)
    requires Inv(s) && s.phase.Online? && s.hi != []
    ensures Inv(DequeueStep(s))
  {
    RequestSlotsSnoc(s.wire, s.hi[0]);
    assert Owed(DequeueStep(s)) == Owed(s);
  }

  /** Taking the first unread message moves the answer count, whether it is routed or lost. */
  lemma LoseKeeps(s: System)
    requires Inv(s) && s.events != []
    ensures Inv(LoseStep(s))
  {
    if s.events[0].answers.Some? {
      OwedHead(s);
    } else {
      assert AnswerSlots(s.events) == AnswerSlots(s.events[1..]);
    }
  }

  /** Routing changes more than losing only in the FIFO, the configuration mailbox and the outbox. */
  lemma RouteShape(s: System)
    requires s.events != [] && s.popped <= |s.asked| && s.core.pending == s.asked[s.popped..]
    ensures var t := RouteStep(s);
            && t == LoseStep(s).(core := t.core, outbox := t.outbox, popped := t.popped)
            && t.core == s.core.(pending := t.core.pending, pendingConfig := t.core.pendingConfig)
            && t.popped <= |s.asked| == |t.asked| && t.core.pending == s.asked[t.popped..]
  {
    if s.core.pending != [] {
      assert s.asked[s.popped..][1..] == s.asked[s.popped + 1..];
    }
  }

  lemma RouteKeeps(s: System)
    requires Inv(s) && s.events != []
    ensures Inv(RouteStep(s))
  {
    LoseKeeps(s);
    RouteShape(s);
    assert Owed(RouteStep(s)) == Owed(LoseStep(s));
  }

  lemma QuietEnqueueKeeps(s: System, m: SignalingMessage)
    requires Inv(s) && !IsSfuRequest(m)
    ensures Inv(Enqueue(s, m, 0))
  {
    EnqueueKeeps(s, m, 0);
  }

  predicate IsSessionStep(step: Step) {
    || step.BreakSession? || step.ResetState? || step.DrainHi? || step.DrainHiDone?
    || step.DrainLo? || step.DrainLoDone? || step.Rejoin?
  }

  lemma SessionStepKeeps(s: System, step: Step)
    requires Inv(s) && Enabled(s, step) && IsSessionStep(step)
    ensures Inv(Apply(s, step))
  {
    if step.Rejoin? {
      assert Owed(Apply(s, step)) == [] == Range(s.answered, |s.asked|);
    }
  }

  predicate IsServerStep(step: Step) {
    step.ServerTakes? || step.ServerSends? || step.DequeueHi? || step.RouteNext? || step.LoseNext?
  }

  lemma ServerStepKeeps(s: System, step: Step)
    requires Inv(s) && Enabled(s, step) && IsServerStep(step)
    ensures Inv(Apply(s, step))
  {
    match step {
      case RouteNext => RouteKeeps(s);
      case LoseNext => LoseKeeps(s);
      case ServerSends(m) => SendKeeps(s, m);
      case DequeueHi => DequeueKeeps(s);
      case ServerTakes(reply) =>
        if reply.Some? {
          TakeKeeps(s, reply.value, if IsSfuRequest(s.wire[0].msg) then Some(s.wire[0].slot) else None);
        } else {
          IgnoreKeeps(s);
        }
    }
  }

  lemma ChildrenStepKeeps(s: System, step: Step)
    requires Inv(s) && Enabled(s, step) && !IsServerStep(step) && !IsSessionStep(step)
    ensures Inv(Apply(s, step))
  {
    if step.ChildSends? {
      ChildStepShape(s, step.conn, step.src, step.msg);
      ChildStepKeeps(s, ChildStep(s, step.conn, step.src, step.msg), step.conn, step.msg);
    } else if step.AgentSends? {
      QuietEnqueueKeeps(s, step.msg);
    } else if step.ReportGone? {
      var key := s.core.conns[step.conn].producerKey.value;
      QuietEnqueueKeeps(s, DownstreamGone(key.0, key.1));
    } else {
      assert Owed(Apply(s, step)) == Owed(s);
    }
  }

  lemma StepKeepsInv(s: System, step: Step)
    requires Inv(s) && Enabled(s, step)
    ensures Inv(Apply(s, step))
  {
    if IsSessionStep(step) {
      SessionStepKeeps(s, step);
    } else if IsServerStep(step) {
      ServerStepKeeps(s, step);
    } else {
      ChildrenStepKeeps(s, step);
    }
  }

  /** The coupling invariant holds after every run from start-up, whatever the server and the children do. */
  lemma {:induction false} RunsKeepInv(room: string, steps: seq<Step>)
    requires Legal(Start(room), steps)
    ensures Inv(Exec(Start(room), steps))
    decreases |steps|
  {
    if steps != [] {
      var init := steps[..|steps| - 1];
      RunsKeepInv(room, init);
      StepKeepsInv(Exec(Start(room), init), steps[|steps| - 1]);
    }
  }

  // ---- Replies reach their senders, exactly when nothing strays ----

  /** The FIFO has popped one slot per answered request. */
  predicate Aligned(s: System) {
    s.popped == s.answered
  }

  /**
   The two ways to lose the pairing: a reply-class message that answers no SFU request arrives while
   requests are pending (it takes somebody's slot), or an answer is lost before it is routed.
   */
  predicate Faulty(s: System, step: Step) {
    || (step.RouteNext? && s.events != [] && s.events[0].answers.None?
        && IsFifoReply(s.events[0].msg) && s.core.pending != [])
    || (step.LoseNext? && s.events != [] && s.events[0].answers.Some?)
  }

  /** From an aligned state the pairing survives a step if and only if the step is not faulty. */
  lemma AlignmentIsLostExactlyByFaults(s: System, step: Step)
    requires Inv(s) && Aligned(s) && Enabled(s, step)
    ensures Aligned(Apply(s, step)) <==> !Faulty(s, step)
  {
    if step.ChildSends? {
      ChildStepShape(s, step.conn, step.src, step.msg);
    } else if step.RouteNext? && s.events[0].answers.Some? {
      OwedHead(s);
    }
  }

  /**
   Routing the answer to request k: it takes the slot of request `popped`, so it is handed to the
   connection that sent k and to nobody else (nobody at all if that connection has closed) when the
   state is aligned; otherwise it takes the slot of another request, or finds none left.
   */
  lemma AnswerTakesItsOwnSlotIffAligned(s: System)
    requires Inv(s) && Enabled(s, RouteNext) && s.events[0].answers.Some?
    ensures var k := s.events[0].answers.value;
            var t := Apply(s, RouteNext);
            && k == s.answered < |s.asked|
            && (k == s.popped <==> Aligned(s))
            && (Aligned(s) ==> t.outbox.Keys == {s.asked[k]} * s.core.conns.Keys)
            && (Aligned(s) && s.asked[k] in s.core.conns ==>
                t.outbox[s.asked[k]] == Delivery(s.asked[k],
                                                 RewriteRoom(s.events[0].msg, s.core.conns[s.asked[k]].room),
                                                 Some(s.asked[k]), s.session, Some(k)))
            && (s.popped < |s.asked| ==> t.outbox.Keys == {s.asked[s.popped]} * s.core.conns.Keys)
            && (s.popped == |s.asked| ==> t.outbox == map[])
  {
    OwedHead(s);
    if s.popped < |s.asked| {
      assert s.core.pending[0] == s.asked[s.popped];
    }
  }

  predicate FaultFree(s: System, steps: seq<Step>)
    requires Legal(s, steps)
    decreases |steps|
  {
    steps == [] ||
    (FaultFree(s, steps[..|steps| - 1]) && !Faulty(Exec(s, steps[..|steps| - 1]), steps[|steps| - 1]))
  }

  /** The pairing holds after every prefix of the run. */
  predicate AlignedThroughout(s: System, steps: seq<Step>)
    requires Legal(s, steps)
    decreases |steps|
  {
    Aligned(Exec(s, steps)) && (steps == [] || AlignedThroughout(s, steps[..|steps| - 1]))
  }

  /** A run keeps the pairing at every moment if and only if none of its steps is faulty. */
  lemma {:induction false} PairingHoldsIffFaultFree(room: string, steps: seq<Step>)
    requires Legal(Start(room), steps)
    ensures AlignedThroughout(Start(room), steps) <==> FaultFree(Start(room), steps)
    decreases |steps|
  {
    if steps != [] {
      var init := steps[..|steps| - 1];
      PairingHoldsIffFaultFree(room, init);
      RunsKeepInv(room, init);
      if AlignedThroughout(Start(room), init) {
        AlignmentIsLostExactlyByFaults(Exec(Start(room), init), steps[|steps| - 1]);
      }
    }
  }

  ghost predicate RepliesGoHome(s: System) {
    && (forall c :: c in s.outbox ==> s.outbox[c].conn == c)
    && (forall c :: c in s.outbox && s.outbox[c].requester.Some? ==> s.outbox[c].requester.value == c)
    && (forall d :: d in s.delivered && d.requester.Some? ==> d.requester.value == d.conn)
  }

  lemma StepKeepsHome(s: System, step: Step)
    requires Inv(s) && Aligned(s) && RepliesGoHome(s) && Enabled(s, step) && !Faulty(s, step)
    ensures RepliesGoHome(Apply(s, step))
  {
    if step.RouteNext? {
      if s.events[0].answers.Some? {
        AnswerTakesItsOwnSlotIffAligned(s);
      }
    } else if step.ChildSends? {
      ChildStepShape(s, step.conn, step.src, step.msg);
    }
  }

  /**
   Main result.  In every fault-free run, over any number of sessions, every answer handed to a
   child answers a request of that same child; it never reaches another one.
   */
  lemma {:induction false} EveryReplyReachesItsSender(room: string, steps: seq<Step>)
    requires Legal(Start(room), steps) && FaultFree(Start(room), steps)
    ensures var s := Exec(Start(room), steps);
            && Aligned(s)
            && RepliesGoHome(s)
            && (s.phase.Online? ==> s.core.pending == Owners(s.asked, Owed(s)))
    decreases |steps|
  {
    RunsKeepInv(room, steps);
    var s := Exec(Start(room), steps);
    if steps != [] {
      var init := steps[..|steps| - 1];
      var last := steps[|steps| - 1];
      EveryReplyReachesItsSender(room, init);
      RunsKeepInv(room, init);
      AlignmentIsLostExactlyByFaults(Exec(Start(room), init), last);
      StepKeepsHome(Exec(Start(room), init), last);
    }
    if s.phase.Online? {
      PendingIsOwners(s);
    }
  }

  lemma PendingIsOwners(s: System)
    requires Inv(s) && Aligned(s) && s.phase.Online?
    ensures s.core.pending == Owners(s.asked, Owed(s))
  {
    assert s.core.pending == Owners(s.asked, Range(s.answered, |s.asked|));
  }

  /** The senders of the given requests. */
  function Owners(asked: seq<ConnId>, slots: seq<nat>): seq<ConnId> {
    seq(|slots|, i requires 0 <= i < |slots| => if slots[i] < |asked| then asked[slots[i]] else 0)
  }

  // ---- The same, session by session ----

  /** No step since the session began was faulty. */
  predicate FaultFreeSession(s: System, steps: seq<Step>)
    requires Legal(s, steps)
    decreases |steps|
  {
    steps == [] || steps[|steps| - 1].Rejoin? ||
    (FaultFreeSession(s, steps[..|steps| - 1]) && !Faulty(Exec(s, steps[..|steps| - 1]), steps[|steps| - 1]))
  }

  /** A delivery is never of a later session, and while no session is joined of none that is to come. */
  predicate Dated(d: Delivery, session: nat, joined: bool) {
    d.session <= session && (d.session == session ==> joined)
  }

  ghost predicate AllDated(s: System) {
    && (forall i :: 0 <= i < |s.delivered| ==> Dated(s.delivered[i], s.session, s.core.joined))
    && (forall c :: c in s.outbox ==> s.outbox[c].conn == c && Dated(s.outbox[c], s.session, s.core.joined))
  }

  /** An answer of the given session is with the child that asked for it. */
  predicate AtHome(d: Delivery, session: nat) {
    d.session == session && d.requester.Some? ==> d.requester.value == d.conn
  }

  ghost predicate SessionAtHome(s: System) {
    && (forall i :: 0 <= i < |s.delivered| ==> AtHome(s.delivered[i], s.session))
    && (forall c :: c in s.outbox ==> AtHome(s.outbox[c], s.session))
  }

  lemma RouteKeepsSession(s: System)
    requires Inv(s) && Enabled(s, RouteNext) && AllDated(s)
    ensures AllDated(RouteStep(s))
    ensures Aligned(s) && SessionAtHome(s) && !Faulty(s, RouteNext) ==> SessionAtHome(RouteStep(s))
  {
    if s.events[0].answers.Some? {
      AnswerTakesItsOwnSlotIffAligned(s);
    }
  }

  lemma DeliveryKeepsSession(s: System, c: ConnId)
    requires AllDated(s) && c in s.outbox
    ensures AllDated(Apply(s, DeliverTo(c)))
    ensures SessionAtHome(s) ==> SessionAtHome(Apply(s, DeliverTo(c)))
  {
  }

  lemma OthersKeepSession(s: System, step: Step)
    requires Inv(s) && Enabled(s, step) && AllDated(s) && !step.RouteNext? && !step.DeliverTo?
    ensures AllDated(Apply(s, step))
    ensures step.Rejoin? || SessionAtHome(s) ==> SessionAtHome(Apply(s, step))
  {
    OthersLeaveTheLog(s, step);
  }

  /** Steps other than routing and delivering leave the log and the outbox alone and never count backwards. */
  lemma OthersLeaveTheLog(s: System, step: Step)
    requires Enabled(s, step) && !step.RouteNext? && !step.DeliverTo?
    ensures var t := Apply(s, step);
            && t.delivered == s.delivered && t.outbox == s.outbox
            && (t.session == s.session + 1
                || (t.session == s.session && t.answered >= s.answered && (s.core.joined ==> t.core.joined)))
            && (step.Rejoin? ==> t.session == s.session)
  {
    if step.ChildSends? {
      ChildStepShape(s, step.conn, step.src, step.msg);
    }
  }

  lemma StepKeepsSession(s: System, step: Step)
    requires Inv(s) && Enabled(s, step) && AllDated(s)
    ensures AllDated(Apply(s, step))
    ensures step.Rejoin? || (Aligned(s) && SessionAtHome(s) && !Faulty(s, step)) ==> SessionAtHome(Apply(s, step))
  {
    if step.RouteNext? {
      RouteKeepsSession(s);
    } else if step.DeliverTo? {
      DeliveryKeepsSession(s, step.conn);
    } else {
      OthersKeepSession(s, step);
    }
  }

  lemma {:induction false} RunsKeepDates(room: string, steps: seq<Step>)
    requires Legal(Start(room), steps)
    ensures AllDated(Exec(Start(room), steps))
    decreases |steps|
  {
    if steps != [] {
      var init := steps[..|steps| - 1];
      RunsKeepDates(room, init);
      RunsKeepInv(room, init);
      StepKeepsSession(Exec(Start(room), init), steps[|steps| - 1]);
    }
  }

  /**
   Faults do not outlive their session.  Whatever went wrong before, while no step since the last rejoin
   was faulty every answer of the current session is handed to the child that asked for it and waits for
   no other one.
   */
  lemma {:induction false} EverySessionStartsAfresh(room: string, steps: seq<Step>)
    requires Legal(Start(room), steps) && FaultFreeSession(Start(room), steps)
    ensures Aligned(Exec(Start(room), steps)) && SessionAtHome(Exec(Start(room), steps))
    decreases |steps|
  {
    if steps != [] {
      var init, last := steps[..|steps| - 1], steps[|steps| - 1];
      RunsKeepInv(room, init);
      RunsKeepDates(room, init);
      StepKeepsSession(Exec(Start(room), init), last);
      if last.Rejoin? {
        assert Exec(Start(room), init).asked == [];
      } else {
        EverySessionStartsAfresh(room, init);
        AlignmentIsLostExactlyByFaults(Exec(Start(room), init), last);
      }
    }
  }

  // ---- Each answer is handed over once, in order ----

  /** The answer `d` was given before `e`: in an earlier session, or to an earlier request of the same one. */
  predicate Before(d: Delivery, e: Delivery) {
    d.request.Some? && e.request.Some? ==>
      d.session < e.session || (d.session == e.session && d.request.value < e.request.value)
  }

  /** An answer taken from the event stream of this session has been counted. */
  predicate Counted(d: Delivery, session: nat, answered: nat) {
    d.request.Some? ==> d.session < session || (d.session == session && d.request.value < answered)
  }

  /** The log is in request order, and what waits in the outbox comes after it, at most one answer of it. */
  ghost predicate InOrder(delivered: seq<Delivery>, outbox: map<ConnId, Delivery>) {
    && (forall i, j :: 0 <= i < j < |delivered| ==> Before(delivered[i], delivered[j]))
    && (forall i, c :: 0 <= i < |delivered| && c in outbox ==> Before(delivered[i], outbox[c]))
    && (forall c, e :: c in outbox && e in outbox && c != e ==> Before(outbox[c], outbox[e]))
  }

  ghost predicate AllCounted(s: System) {
    && (forall i :: 0 <= i < |s.delivered| ==> Counted(s.delivered[i], s.session, s.answered))
    && (forall c :: c in s.outbox ==> Counted(s.outbox[c], s.session, s.answered))
  }

  ghost predicate HandedOverInOrder(s: System) {
    InOrder(s.delivered, s.outbox) && AllCounted(s)
  }

  lemma RouteKeepsOrder(s: System)
    requires Inv(s) && Enabled(s, RouteNext) && HandedOverInOrder(s)
    ensures HandedOverInOrder(RouteStep(s))
  {
    var t := RouteStep(s);
    if s.events[0].answers.Some? {
      OwedHead(s);
      assert IsFifoReply(s.events[0].msg);
      assert forall c, e :: c in t.outbox && e in t.outbox ==> c == e;
    }
  }

  lemma DeliveryKeepsOrder(s: System, c: ConnId)
    requires HandedOverInOrder(s) && c in s.outbox
    ensures HandedOverInOrder(Apply(s, DeliverTo(c)))
  {
  }

  lemma OthersKeepOrder(s: System, step: Step)
    requires Enabled(s, step) && HandedOverInOrder(s) && !step.RouteNext? && !step.DeliverTo?
    ensures HandedOverInOrder(Apply(s, step))
  {
    OthersLeaveTheLog(s, step);
  }

  /**
   In every run, faulty or not: the answers handed over are in the order of their sessions and, within
   a session, of their requests; in particular no request is answered twice.
   */
  lemma {:induction false} AnswersComeOnceInOrder(room: string, steps: seq<Step>)
    requires Legal(Start(room), steps)
    ensures var s := Exec(Start(room), steps);
            && HandedOverInOrder(s)
            && forall i, j :: 0 <= i < j < |s.delivered| && s.delivered[i].request.Some? && s.delivered[j].request.Some?
                              && s.delivered[i].session == s.delivered[j].session ==>
                 s.delivered[i].request.value < s.delivered[j].request.value
    decreases |steps|
  {
    if steps != [] {
      var init, last := steps[..|steps| - 1], steps[|steps| - 1];
      AnswersComeOnceInOrder(room, init);
      RunsKeepInv(room, init);
      var s := Exec(Start(room), init);
      if last.RouteNext? {
        RouteKeepsOrder(s);
      } else if last.DeliverTo? {
        DeliveryKeepsOrder(s, last.conn);
      } else {
        OthersKeepOrder(s, last);
      }
    }
    OrderOfLog(Exec(Start(room), steps).delivered, Exec(Start(room), steps).outbox);
  }

  lemma OrderOfLog(delivered: seq<Delivery>, outbox: map<ConnId, Delivery>)
    requires InOrder(delivered, outbox)
    ensures forall i, j :: 0 <= i < j < |delivered| && delivered[i].request.Some? && delivered[j].request.Some?
                           && delivered[i].session == delivered[j].session ==>
              delivered[i].request.value < delivered[j].request.value
  {
    forall i, j | 0 <= i < j < |delivered| && delivered[i].request.Some? && delivered[j].request.Some?
                  && delivered[i].session == delivered[j].session
      ensures delivered[i].request.value < delivered[j].request.value
    {
      assert Before(delivered[i], delivered[j]);
    }
  }

  // ---- The room an answer names ----

  /** Queued and travelling requests are the rewrites of what their senders sent. */
  ghost predicate ItemsMatch(items: seq<Item>, sent: seq<SignalingMessage>, room: string) {
    forall i :: 0 <= i < |items| && IsSfuRequest(items[i].msg) ==>
      items[i].slot < |sent| && items[i].msg == RewriteRoom(sent[items[i].slot], room)
  }

  /** `reply`, if it has a room, names the one that `asked` was sent in. */
  predicate InItsRoom(reply: SignalingMessage, asked: SignalingMessage) {
    reply.InRoom? && asked.InRoom? ==> reply.roomId == asked.roomId
  }

  ghost predicate AnswersMatch(events: seq<Event>, sent: seq<SignalingMessage>, room: string) {
    forall i :: 0 <= i < |events| && events[i].answers.Some? ==>
      events[i].answers.value < |sent| && InItsRoom(events[i].msg, RewriteRoom(sent[events[i].answers.value], room))
  }

  ghost predicate RoomsOk(s: System) {
    && |s.sent| == |s.asked|
    && (s.core.joined ==>
        && ItemsMatch(s.hi, s.sent, s.core.vehicleRoom)
        && ItemsMatch(s.wire, s.sent, s.core.vehicleRoom)
        && AnswersMatch(s.events, s.sent, s.core.vehicleRoom))
  }

  /** The server answers in the room it was asked in. */
  predicate InPlace(s: System, step: Step) {
    step.ServerTakes? && s.wire != [] && step.reply.Some? && IsSfuRequest(s.wire[0].msg) ==>
      InItsRoom(step.reply.value, s.wire[0].msg)
  }

  lemma MoreSent(s: System, x: SignalingMessage)
    requires RoomsOk(s) && s.core.joined
    ensures ItemsMatch(s.hi, s.sent + [x], s.core.vehicleRoom)
    ensures ItemsMatch(s.wire, s.sent + [x], s.core.vehicleRoom)
    ensures AnswersMatch(s.events, s.sent + [x], s.core.vehicleRoom)
  {
  }

  lemma MoreItems(items: seq<Item>, x: Item, sent: seq<SignalingMessage>, room: string)
    requires ItemsMatch(items, sent, room)
    requires IsSfuRequest(x.msg) ==> x.slot < |sent| && x.msg == RewriteRoom(sent[x.slot], room)
    ensures ItemsMatch(items + [x], sent, room)
  {
  }

  lemma ChildKeepsRooms(s: System, t: System, c: ConnId, m: SignalingMessage)
    requires RoomsOk(s) && ChildShape(s, t, c, m)
    ensures RoomsOk(t)
  {
    if AsksOnce(s, t, c, m) {
      MoreSent(s, m);
      MoreItems(s.hi, Item(RewriteRoom(m, s.core.vehicleRoom), |s.asked|), t.sent, s.core.vehicleRoom);
    } else if s.core.joined && t.hi != s.hi {
      var x :| t.hi == s.hi + [x] && !IsSfuRequest(x.msg);
      MoreItems(s.hi, x, s.sent, s.core.vehicleRoom);
    }
  }

  lemma QuietKeepsRooms(s: System, m: SignalingMessage)
    requires RoomsOk(s) && !IsSfuRequest(m)
    ensures RoomsOk(Enqueue(s, m, 0))
  {
    if s.core.joined {
      MoreItems(s.hi, Item(m, 0), s.sent, s.core.vehicleRoom);
    }
  }

  lemma DequeueKeepsRooms(s: System)
    requires RoomsOk(s) && s.hi != []
    ensures RoomsOk(DequeueStep(s))
  {
    if s.core.joined {
      MoreItems(s.wire, s.hi[0], s.sent, s.core.vehicleRoom);
    }
  }

  lemma EmitKeepsRooms(s: System, m: SignalingMessage, tag: Option<nat>)
    requires RoomsOk(s)
    requires s.core.joined && tag.Some? ==>
               tag.value < |s.sent| && InItsRoom(m, RewriteRoom(s.sent[tag.value], s.core.vehicleRoom))
    ensures RoomsOk(Emit(s, m, tag))
  {
  }

  lemma TakeKeepsRooms(s: System, reply: Option<SignalingMessage>)
    requires RoomsOk(s) && Enabled(s, ServerTakes(reply)) && InPlace(s, ServerTakes(reply))
    ensures RoomsOk(Apply(s, ServerTakes(reply)))
  {
    var taken := s.(wire := s.wire[1..]);
    assert RoomsOk(taken);
    if reply.Some? {
      EmitKeepsRooms(taken, reply.value, if IsSfuRequest(s.wire[0].msg) then Some(s.wire[0].slot) else None);
    }
  }

  lemma RouteKeepsRooms(s: System)
    requires Inv(s) && RoomsOk(s) && s.events != []
    ensures RoomsOk(LoseStep(s)) && RoomsOk(RouteStep(s))
  {
    RouteShape(s);
  }

  lemma SessionKeepsRooms(s: System, step: Step)
    requires Inv(s) && RoomsOk(s) && Enabled(s, step) && IsSessionStep(step)
    ensures RoomsOk(Apply(s, step))
  {
    if step.Rejoin? {
      NoSlotsNoRequests(s.hi);
    }
  }

  lemma StepKeepsRooms(s: System, step: Step)
    requires Inv(s) && RoomsOk(s) && Enabled(s, step) && InPlace(s, step)
    ensures RoomsOk(Apply(s, step))
  {
    if IsSessionStep(step) {
      SessionKeepsRooms(s, step);
    } else if step.ServerTakes? {
      TakeKeepsRooms(s, step.reply);
    } else if step.RouteNext? || step.LoseNext? {
      RouteKeepsRooms(s);
    } else if step.ServerSends? {
      EmitKeepsRooms(s, step.msg, None);
    } else if step.DequeueHi? {
      DequeueKeepsRooms(s);
    } else if step.ChildSends? {
      ChildStepShape(s, step.conn, step.src, step.msg);
      ChildKeepsRooms(s, ChildStep(s, step.conn, step.src, step.msg), step.conn, step.msg);
    } else if step.AgentSends? {
      QuietKeepsRooms(s, step.msg);
    } else if step.ReportGone? {
      var key := s.core.conns[step.conn].producerKey.value;
      QuietKeepsRooms(s, DownstreamGone(key.0, key.1));
    }
  }

  predicate AnswersInPlace(s: System, steps: seq<Step>)
    requires Legal(s, steps)
    decreases |steps|
  {
    steps == [] ||
    (AnswersInPlace(s, steps[..|steps| - 1]) && InPlace(Exec(s, steps[..|steps| - 1]), steps[|steps| - 1]))
  }

  lemma {:induction false} RunsKeepRooms(room: string, steps: seq<Step>)
    requires Legal(Start(room), steps) && AnswersInPlace(Start(room), steps)
    ensures RoomsOk(Exec(Start(room), steps))
    decreases |steps|
  {
    if steps != [] {
      var init := steps[..|steps| - 1];
      RunsKeepRooms(room, init);
      RunsKeepInv(room, init);
      StepKeepsRooms(Exec(Start(room), init), steps[|steps| - 1]);
    }
  }

  /**
   In any run with a server that answers in the room it was asked in, whatever else is in flight: the
   answer routed to an aligned request reaches its sender with the payload unchanged, and names the room
   the request named, which is still the sender's own, exactly when that room survives the two rewrites.
   */
  lemma AnswerNamesTheDeclaredRoom(room: string, steps: seq<Step>)
    requires Legal(Start(room), steps) && AnswersInPlace(Start(room), steps)
    requires var s := Exec(Start(room), steps);
             && Aligned(s) && Enabled(s, RouteNext) && s.events[0].answers.Some?
             && s.events[0].answers.value < |s.sent| == |s.asked|
             && var k := s.events[0].answers.value;
             && s.events[0].msg.InRoom? && s.sent[k].InRoom?
             && s.asked[k] in s.core.conns && s.core.conns[s.asked[k]].room == s.sent[k].roomId
    ensures var s := Exec(Start(room), steps);
            var k := s.events[0].answers.value;
            var outbox := RouteStep(s).outbox;
            && outbox.Keys == {s.asked[k]}
            && outbox[s.asked[k]].msg.InRoom? && outbox[s.asked[k]].msg.payload == s.events[0].msg.payload
            && (outbox[s.asked[k]].msg.roomId == s.sent[k].roomId
                <==> RoomSurvives(s.sent[k].roomId, s.core.vehicleRoom))
  {
    RunsKeepInv(room, steps);
    RunsKeepRooms(room, steps);
    var s := Exec(Start(room), steps);
    var k := s.events[0].answers.value;
    AnswerTakesItsOwnSlotIffAligned(s);
    RoomRoundTrip(s.sent[k], s.events[0].msg, s.sent[k].roomId, s.core.vehicleRoom);
  }

  // ---- What the environment has to promise ----

  /** The event stream does not lag, and the server uses reply-class messages only to answer SFU requests. */
  predicate Promised(s: System, step: Step) {
    match step
    case LoseNext => false
    case ServerSends(m) => !IsFifoReply(m)
    case ServerTakes(reply) =>
      s.wire == [] || IsSfuRequest(s.wire[0].msg) || reply.None? || !IsFifoReply(reply.value)
    case _ => true
  }

  predicate Promising(s: System, steps: seq<Step>)
    requires Legal(s, steps)
    decreases |steps|
  {
    steps == [] ||
    (Promising(s, steps[..|steps| - 1]) && Promised(Exec(s, steps[..|steps| - 1]), steps[|steps| - 1]))
  }

  ghost predicate NoStray(events: seq<Event>) {
    forall i :: 0 <= i < |events| && IsFifoReply(events[i].msg) ==> events[i].answers.Some?
  }

  /** What one step can do to the unread server messages: nothing, drop one or all, or append one. */
  lemma StepOnEvents(s: System, step: Step)
    requires Enabled(s, step)
    ensures var events := Apply(s, step).events;
            || events == s.events
            || events == []
            || (s.events != [] && events == s.events[1..])
            || (step.ServerSends? && events == s.events + [Event(step.msg, None)])
            || (step.ServerTakes? && step.reply.Some? && exists tag: Option<nat> ::
                  (tag.None? ==> !IsSfuRequest(s.wire[0].msg)) && events == s.events + [Event(step.reply.value, tag)])
  {
    if step.ChildSends? {
      ChildStepShape(s, step.conn, step.src, step.msg);
    }
  }

  lemma NoStrayKept(s: System, step: Step)
    requires Enabled(s, step) && Promised(s, step) && NoStray(s.events)
    ensures !Faulty(s, step) && NoStray(Apply(s, step).events)
  {
    StepOnEvents(s, step);
  }

  lemma {:induction false} PromisesRuleOutFaults(room: string, steps: seq<Step>)
    requires Legal(Start(room), steps) && Promising(Start(room), steps)
    ensures FaultFree(Start(room), steps) && NoStray(Exec(Start(room), steps).events)
    decreases |steps|
  {
    if steps != [] {
      var init := steps[..|steps| - 1];
      PromisesRuleOutFaults(room, init);
      NoStrayKept(Exec(Start(room), init), steps[|steps| - 1]);
    }
  }

  // ---- Reconnects ----

  /**
   Whatever the children did while the session was down, the moment `joined` becomes true again the
   FIFO and the echo cache are empty and no SFU request is queued, so the new session starts aligned.
   */
  lemma RejoinStartsClean(room: string, steps: seq<Step>, rejoin: Step)
    requires Legal(Start(room), steps + [rejoin]) && rejoin.Rejoin?
    ensures var s := Exec(Start(room), steps + [rejoin]);
            && s.core.joined && s.core.pending == [] && s.core.echoCache == []
            && RequestSlots(s.hi) == [] && s.wire == [] && s.events == []
            && Aligned(s)
            && (forall i :: 0 <= i < |s.hi| ==> !IsSfuRequest(s.hi[i].msg))
  {
    var all := steps + [rejoin];
    assert all[..|all| - 1] == steps;
    RunsKeepInv(room, steps);
    var s := Exec(Start(room), steps);
    assert s.asked == [] && s.core.pending == [];
    NoSlotsNoRequests(s.hi);
  }

  lemma {:induction false} NoSlotsNoRequests(items: seq<Item>)
    requires RequestSlots(items) == []
    ensures forall i :: 0 <= i < |items| ==> !IsSfuRequest(items[i].msg)
  {
    if items != [] {
      NoSlotsNoRequests(items[1..]);
    }
  }

  // ---- Queues, hand-over and closing ----

  function Messages(items: seq<Item>): seq<SignalingMessage> {
    seq(|items|, i requires 0 <= i < |items| => items[i].msg)
  }

  /** Queueing in a run is the push of the queue object. */
  lemma EnqueueIsPush(s: System, m: SignalingMessage, slot: nat, dropped: nat)
    ensures var t := Enqueue(s, m, slot);
            var r := Pushed(Queues(Messages(s.hi), s.lo, dropped, true), m);
            Messages(t.hi) == r.hi && t.lo == r.lo
  {
  }

  /** The agent's own reports are queued in a session and dropped without one. */
  lemma AgentReportsInASession(s: System, m: SignalingMessage)
    requires Enabled(s, AgentSends(m))
    ensures var t := Apply(s, AgentSends(m));
            && (s.core.joined && !m.StatusReport? ==> Messages(t.hi) == Messages(s.hi) + [m] && t.lo == s.lo)
            && (s.core.joined && m.StatusReport? && |s.lo| < 16 ==> t.lo == s.lo + [m] && t.hi == s.hi)
            && (!s.core.joined ==> t == s)
  {
  }

  /** Both queues are sent, and drained, from the front, one message at a time. */
  lemma QueuesGoOutInOrder(s: System)
    ensures Enabled(s, DequeueHi) ==>
              var t := Apply(s, DequeueHi); [s.hi[0]] + t.hi == s.hi && t.wire == s.wire + [s.hi[0]] && t.lo == s.lo
    ensures Enabled(s, DequeueLo) ==> [s.lo[0]] + Apply(s, DequeueLo).lo == s.lo && Apply(s, DequeueLo).hi == s.hi
    ensures Enabled(s, DrainHi) ==> [s.hi[0]] + Apply(s, DrainHi).hi == s.hi && Apply(s, DrainHi).wire == s.wire
    ensures Enabled(s, DrainLo) ==> [s.lo[0]] + Apply(s, DrainLo).lo == s.lo
  {
  }

  /** Routing hands over exactly what the gateway decided, and delivering it reaches a child unless it closed. */
  lemma RoutedIsHandedOver(s: System, c: ConnId)
    requires Enabled(s, RouteNext)
    ensures var (core, targets) := Downstream(s.core, s.events[0].msg);
            var t := Apply(s, RouteNext);
            && t.core == core && t.events == s.events[1..] && t.outbox.Keys == targets.Keys
            && (c in targets ==>
                && Enabled(t, DeliverTo(c)) && t.outbox[c].conn == c && t.outbox[c].msg == targets[c]
                && Apply(t, DeliverTo(c)).delivered == t.delivered + [t.outbox[c]]
                && Apply(t, CloseChild(c)).outbox == t.outbox
                && Apply(Apply(t, CloseChild(c)), DeliverTo(c)).delivered == t.delivered)
  {
    RouteTargetsAreOpen(s.core, s.events[0].msg);
  }

  lemma RouteTargetsAreOpen(st: Core, m: SignalingMessage)
    ensures Downstream(st, m).1.Keys <= st.conns.Keys && Downstream(st, m).0.conns == st.conns
  {
  }

  /** A child that published and closes is reported under the identity and the room it published with. */
  lemma DeathIsReported(s: System, c: ConnId, src: string, room: string, peer: string, body: string)
    requires c in s.core.conns
    ensures var t := Apply(s, ChildSends(c, src, InRoom(room, Produce(peer, body))));
            && Enabled(t, ReportGone(c))
            && Messages(Apply(t, ReportGone(c)).hi) == Messages(t.hi) + [DownstreamGone(peer, room)]
  {
    NotedProducer(s, c, src, room, peer, body);
  }

  lemma NotedProducer(s: System, c: ConnId, src: string, room: string, peer: string, body: string)
    requires c in s.core.conns
    ensures var conns := ChildStep(s, c, src, InRoom(room, Produce(peer, body))).core.conns;
            c in conns && conns[c].producerKey == Some((peer, room))
  {
  }

  // ---- Echo suppression ----

  /**
   In every run, a server message is swallowed as an echo exactly when it is one of the last 256
   Sdp, candidate and Frame messages forwarded in this session; any other message is routed in full.
   */
  lemma EchoIsTheLastForwarded(room: string, steps: seq<Step>, m: SignalingMessage)
    requires Legal(Start(room), steps)
    ensures var s := Exec(Start(room), steps);
            var window := LastOf(s.relayed, ECHO_CACHE_CAP);
            && |window| == Min(256, |s.relayed|)
            && (IsEcho(s.core, m) <==> m in window)
            && (m in window ==> Downstream(s.core, m) == (s.core, map[]))
            && (m !in window ==> Downstream(s.core, m).1 == Routing(s.core, m))
  {
    RunsKeepInv(room, steps);
    var s := Exec(Start(room), steps);
    assert forall x :: x in LastOf(s.relayed, ECHO_CACHE_CAP) ==> x in s.relayed;
  }

  // ---- The promise is needed ----

  ghost predicate Reachable(s: System) {
    exists room, steps :: Legal(Start(room), steps) && Exec(Start(room), steps) == s
  }

  lemma ReachNext(s: System, step: Step) returns (t: System)
    requires Reachable(s) && Enabled(s, step)
    ensures t == Apply(s, step) && Reachable(t)
  {
    t := Apply(s, step);
    var room, steps :| Legal(Start(room), steps) && Exec(Start(room), steps) == s;
    var more := steps + [step];
    assert more[..|more| - 1] == steps;
    assert Legal(Start(room), more) && Exec(Start(room), more) == t;
  }

  /** A joined gateway with children 1 and 2, and what is in its pipes. */
  ghost predicate Pipes(s: System, hi: seq<Item>, wire: seq<Item>, events: seq<Event>) {
    && s.phase.Online? && s.core.joined && s.core.conns.Keys == {1, 2}
    && s.hi == hi && s.wire == wire && s.events == events
    && s.outbox == map[] && s.popped <= |s.asked| && s.core.pending == s.asked[s.popped..]
  }

  predicate Asks(m: SignalingMessage) {
    m.InRoom? && (m.payload.SetPreferredLayers? || m.payload.CreateWebRtcTransport? || m.payload.Consume?)
  }

  lemma AskIsForwarded(s: System, c: ConnId, m: SignalingMessage)
    requires s.core.joined && Asks(m)
    ensures var t := ChildStep(s, c, "", m);
            && t.hi == s.hi + [Item(RewriteRoom(m, s.core.vehicleRoom), |s.asked|)]
            && t.asked == s.asked + (if IsSfuRequest(m) then [c] else [])
  {
  }

  lemma ChildAsks(s: System, c: ConnId, m: SignalingMessage) returns (t: System, out: SignalingMessage)
    requires Reachable(s) && Pipes(s, s.hi, [], []) && c in {1, 2} && Asks(m)
    ensures Reachable(t) && out.InRoom? && out.payload == m.payload
    ensures Pipes(t, s.hi + [Item(out, |s.asked|)], [], [])
    ensures t.asked == s.asked + (if IsSfuRequest(m) then [c] else [])
    ensures t.popped == s.popped && t.answered == s.answered && t.delivered == s.delivered && t.session == s.session
  {
    t := ReachNext(s, ChildSends(c, "", m));
    assert t == ChildStep(s, c, "", m);
    AskIsForwarded(s, c, m);
    ChildStepShape(s, c, "", m);
    out := RewriteRoom(m, s.core.vehicleRoom);
  }

  lemma TwoChildrenJoin(room: string) returns (s: System)
    ensures Reachable(s) && Pipes(s, [], [], [])
    ensures s.asked == [] && s.popped == 0 && s.answered == 0 && s.delivered == [] && s.session == 0
  {
    s := Start(room);
    assert Exec(Start(room), []) == s;
    s := ReachNext(s, Rejoin("", 3, None));
    s := ReachNext(s, AcceptChild);
    s := ReachNext(s, AcceptChild);
    assert s.core.conns.Keys == {1, 2};
  }

  lemma TwoChildrenAsk(room: string, m1: SignalingMessage, m2: SignalingMessage, m3: SignalingMessage)
    returns (s: System, a: Item, b: Item, c: Item)
    requires m1.InRoom? && m1.payload.SetPreferredLayers?
    requires m2.InRoom? && m2.payload.CreateWebRtcTransport?
    requires m3.InRoom? && m3.payload.Consume?
    ensures Reachable(s) && Pipes(s, [a, b, c], [], [])
    ensures !IsSfuRequest(a.msg) && IsSfuRequest(b.msg) && b.slot == 0
    ensures s.asked == [2, 1] && s.popped == 0 && s.answered == 0 && s.delivered == [] && s.session == 0
  {
    var x, y, z;
    s := TwoChildrenJoin(room);
    s, x := ChildAsks(s, 1, m1);
    a := Item(x, 0);
    s, y := ChildAsks(s, 2, m2);
    b := Item(y, 0);
    s, z := ChildAsks(s, 1, m3);
    c := Item(z, 1);
  }

  lemma TwoGoOut(s: System, a: Item, b: Item, c: Item) returns (t: System)
    requires Reachable(s) && Pipes(s, [a, b, c], [], [])
    ensures Reachable(t) && Pipes(t, [c], [a, b], [])
    ensures t == s.(hi := [c], wire := [a, b])
  {
    t := ReachNext(s, DequeueHi);
    assert t.hi == [b, c];
    t := ReachNext(t, DequeueHi);
    assert t.wire == [a, b];
  }

  lemma ServerAnswers(s: System, a: Item, b: Item, ack: SignalingMessage, created: SignalingMessage)
    returns (t: System)
    requires Reachable(s) && s.wire == [a, b] && s.events == []
    requires !IsSfuRequest(a.msg) && IsSfuRequest(b.msg) && IsFifoReply(created)
    ensures Reachable(t)
    ensures t == s.(wire := [], events := [Event(ack, None), Event(created, Some(b.slot))])
  {
    t := ReachNext(s, ServerTakes(Some(ack)));
    assert t.wire == [b] && t.events == [Event(ack, None)];
    t := ReachNext(t, ServerTakes(Some(created)));
  }

  /** A reply-class message is routed to the child whose slot it takes. */
  lemma RouteTo(s: System, c: ConnId)
    requires s.events != [] && IsFifoReply(s.events[0].msg) && Pipes(s, s.hi, s.wire, s.events)
    requires s.popped < |s.asked| && s.asked[s.popped] == c && c in {1, 2}
    ensures var t := RouteStep(s);
            && t == s.(core := t.core, outbox := t.outbox, events := s.events[1..], popped := s.popped + 1,
                       answered := t.answered)
            && t.core == s.core.(pending := s.asked[s.popped + 1..])
            && t.outbox.Keys == {c}
            && t.outbox[c].conn == c
            && (s.events[0].msg.Error? ==> t.outbox[c].msg == s.events[0].msg)
            && t.outbox[c].session == s.session && t.outbox[c].request == s.events[0].answers
            && t.outbox[c].requester == if s.events[0].answers.Some? && s.events[0].answers.value < |s.asked|
                                        then Some(s.asked[s.events[0].answers.value]) else None
  {
    assert s.core.pending[0] == c && s.core.pending[1..] == s.asked[s.popped + 1..];
  }

  lemma RouteAndDeliver(s: System, c: ConnId) returns (t: System, d: Delivery)
    requires Reachable(s) && s.events != [] && IsFifoReply(s.events[0].msg) && Pipes(s, s.hi, s.wire, s.events)
    requires s.popped < |s.asked| && s.asked[s.popped] == c && c in {1, 2}
    ensures Reachable(t) && Pipes(t, s.hi, s.wire, s.events[1..])
    ensures t.asked == s.asked && t.popped == s.popped + 1 && t.delivered == s.delivered + [d]
    ensures t.session == s.session
    ensures d.conn == c && (s.events[0].msg.Error? ==> d.msg == s.events[0].msg)
    ensures d.session == s.session && d.request == s.events[0].answers
    ensures d.requester == if s.events[0].answers.Some? && s.events[0].answers.value < |s.asked|
                           then Some(s.asked[s.events[0].answers.value]) else None
  {
    RouteTo(s, c);
    t := ReachNext(s, RouteNext);
    d := t.outbox[c];
    t := ReachNext(t, DeliverTo(c));
    assert t.outbox == map[];
  }

  /**
   The server acknowledges a SetPreferredLayers with `Error{code: 0}`, and that request takes no FIFO
   slot.  So when the first child sets its layers, the second asks for a transport and the first
   consumes, the acknowledgement goes to the second child and the second child's transport is handed
   to the first: a reachable state, in any vehicle room, where a reply reached the wrong child.
   */
  lemma UnmatchedErrorCrossesReplies(room: string) returns (s: System)
    ensures Reachable(s) && !RepliesGoHome(s)
    ensures |s.delivered| == 2
    ensures s.delivered[0] == Delivery(2, Error(0, "preferred_layers_set"), None, 0, None)
    ensures s.delivered[1].conn == 1 && s.delivered[1].requester == Some(2)
  {
    var ack, created := Error(0, "preferred_layers_set"), InRoom(room, WebRtcTransportCreated("t", ""));
    var a, b, c, d, e;
    s, a, b, c := TwoChildrenAsk(room, InRoom("cam", SetPreferredLayers("")),
                                 InRoom("cam", CreateWebRtcTransport("")), InRoom("cam", Consume("")));
    s := TwoGoOut(s, a, b, c);
    s := ServerAnswers(s, a, b, ack, created);
    s, d := RouteAndDeliver(s, 2);
    s, e := RouteAndDeliver(s, 1);
    assert s.delivered == [d, e] && e in s.delivered;
  }
}
