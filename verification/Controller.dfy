/**
 The vehicle controller's ledger of remote data producers, from subscription to exit.

 Signaling is a list of events read through a cursor, as one subscriber sees its broadcast channel;
 `dcOk` says for each event whether creating a data channel would succeed at that moment.  A lagging
 or closed channel is the event `Closed`, which ends the setup and the loop with a failure.
 */
module Controller {
  import opened Protocol
  import opened Wrappers

  datatype SignalEvent =
    | Message(m: SignalingMessage)
    | Connected
    | Disconnected
    | Fault
    | Closed
    | IceFailed
    | StopRequested

  // ---- Setup: waiting for an answer while caching announcements ----

  datatype Awaited = Transport | DataProducer

  /** The event that a wait is for. */
  predicate IsWanted(what: Awaited, e: SignalEvent) {
    e.Message? && e.m.InRoom? &&
    match what
    case Transport => e.m.payload.WebRtcTransportCreated?
    case DataProducer => e.m.payload.DataProducerCreated?
  }

  /** The events that end a wait in failure; `transport_connected` is an acknowledgement, not an error. */
  predicate IsFatal(e: SignalEvent) {
    e.Disconnected? || e.Fault? || e.Closed? ||
    (e.Message? && e.m.Error? && e.m.message != "transport_connected")
  }

  predicate IsAnnouncement(e: SignalEvent) {
    e.Message? && e.m.InRoom? && e.m.payload.NewDataProducer?
  }

  /** The producer ids announced by the events, in order. */
  function Announced(events: seq<SignalEvent>): seq<string> {
    if events == [] then []
    else
      var last := events[|events| - 1];
      Announced(events[..|events| - 1]) + (if IsAnnouncement(last) then [last.m.payload.dataProducerId] else [])
  }

  datatype Wait = Got(at: nat) | Failed(at: nat) | StillWaiting

  /** The first event from `pos` on that ends the wait decides it. */
  ghost predicate Decides(what: Awaited, events: seq<SignalEvent>, pos: nat, w: Wait) {
    match w
    case Got(at) => pos <= at < |events| && IsWanted(what, events[at]) && Quiet(what, events, pos, at)
    case Failed(at) => pos <= at < |events| && IsFatal(events[at]) && Quiet(what, events, pos, at)
    case StillWaiting => pos <= |events| && Quiet(what, events, pos, |events|)
  }

  predicate Quiet(what: Awaited, events: seq<SignalEvent>, from: nat, to: nat)
    requires from <= to <= |events|
  {
    forall i :: from <= i < to ==> !IsWanted(what, events[i]) && !IsFatal(events[i])
  }

  /** One wait: it stops at the deciding event and has cached every announcement before it. */
  method Await(what: Awaited, events: seq<SignalEvent>, pos: nat, pending: seq<string>)
    returns (w: Wait, next: nat, cached: seq<string>)
    requires pos <= |events| && pending == Announced(events[..pos])
    ensures Decides(what, events, pos, w)
    ensures next == ReadTo(w, events) <= |events|
    ensures cached == Announced(events[..next])
  {
    next, cached := pos, pending;
    while next < |events|
      invariant pos <= next <= |events| && Quiet(what, events, pos, next)
      invariant cached == Announced(events[..next])
    {
      var e := events[next];
      assert events[..next + 1][..next] == events[..next];
      if IsWanted(what, e) {
        return Got(next), next + 1, cached;
      } else if IsFatal(e) {
        return Failed(next), next + 1, cached;
      } else if IsAnnouncement(e) {
        cached := cached + [e.m.payload.dataProducerId];
      }
      next := next + 1;
    }
    w := StillWaiting;
  }

  // ---- The ledger ----

  datatype Action = ConsumeSent(id: string) | Routed(id: string) | TornDown(id: string)

  /** A consumer data channel; it is live until it is told to close itself. */
  datatype Channel = Channel(producer: string, live: bool)

  /**
   `log` and `awaiting` are history: what was done, and the consume requests not answered yet.
   `purge` maps a producer to the channel that its teardown closes.
   */
  datatype Ledger = Ledger(
    own: set<string>,
    consumed: set<string>,
    purge: map<string, nat>,
    channels: seq<Channel>,
    log: seq<Action>,
    awaiting: multiset<string>)

  function Silence(channels: seq<Channel>, purge: map<string, nat>, id: string): (r: seq<Channel>)
    ensures |r| == |channels|
  {
    if id in purge && purge[id] < |channels| then channels[purge[id] := channels[purge[id]].(live := false)]
    else channels
  }

  function Announce(l: Ledger, id: string): Ledger {
    if id in l.consumed then l
    else l.(consumed := l.consumed + {id}, log := l.log + [ConsumeSent(id)], awaiting := l.awaiting + multiset{id})
  }

  /** An answer to a consume request: a channel is created and routed, unless it cannot be. */
  function Answered(l: Ledger, id: string, routable: bool): Ledger {
    var t := l.(awaiting := l.awaiting - multiset{id});
    if !routable then t
    else t.(channels := Silence(l.channels, l.purge, id) + [Channel(id, true)],
            purge := l.purge[id := |l.channels|],
            log := l.log + [Routed(id)])
  }

  function Close(l: Ledger, id: string): Ledger {
    if id !in l.purge then l
    else l.(channels := Silence(l.channels, l.purge, id), purge := l.purge - {id},
            consumed := l.consumed - {id}, log := l.log + [TornDown(id)])
  }

  function OnMessage(l: Ledger, m: SignalingMessage, dcOk: bool): Ledger {
    if !m.InRoom? then l
    else if m.payload.NewDataProducer? then Announce(l, m.payload.dataProducerId)
    else if m.payload.DataConsumed? then Answered(l, m.payload.dataProducerId, m.payload.streamId.Some? && dcOk)
    else if m.payload.ProducerClosed? && m.payload.kind.Data? then Close(l, m.payload.producerId)
    else l
  }

  /** A ledger that knows only the controller's own producers. */
  function Opening(own: set<string>): Ledger {
    Ledger(own, own, map[], [], [], multiset{})
  }

  /** The cached announcements, consumed in order. */
  function Drained(own: set<string>, cached: seq<string>): Ledger {
    if cached == [] then Opening(own) else Announce(Drained(own, cached[..|cached| - 1]), cached[|cached| - 1])
  }

  function PlayOne(l: Ledger, e: SignalEvent, dcOk: bool): Ledger {
    if e.Message? then OnMessage(l, e.m, dcOk) else l
  }

  /** The ledger after the loop has read `events`. */
  function Played(start: Ledger, events: seq<SignalEvent>, dcOk: seq<bool>): Ledger
    requires |dcOk| == |events|
  {
    if events == [] then start
    else
      PlayOne(Played(start, events[..|events| - 1], dcOk[..|dcOk| - 1]), events[|events| - 1], dcOk[|dcOk| - 1])
  }

  /** The ledger object that the drain and the loop update. */
  class ControlLedger {
    const own: set<string>
    var consumed: set<string>
    var purge: map<string, nat>
    var channels: seq<Channel>
    var log: seq<Action>
    ghost var awaiting: multiset<string>

    ghost function View(): Ledger
      reads this
    {
      Ledger(own, consumed, purge, channels, log, awaiting)
    }

    constructor (own: set<string>)
      ensures View() == Opening(own)
    {
      this.own, consumed, purge, channels, log := own, own, map[], [], [];
      awaiting := multiset{};
    }

    method OnAnnounced(id: string)
      modifies this
      ensures View() == Announce(old(View()), id)
    {
      if id !in consumed {
        consumed := consumed + {id};
        log := log + [ConsumeSent(id)];
        awaiting := awaiting + multiset{id};
      }
    }

    method OnConsumed(id: string, streamId: Option<nat>, dcOk: bool)
      modifies this
      ensures View() == Answered(old(View()), id, streamId.Some? && dcOk)
    {
      awaiting := awaiting - multiset{id};
      if streamId.None? || !dcOk {
        return;
      }
      // inserting over an old sender drops it, which ends the channel that listened to it
      if id in purge && purge[id] < |channels| {
        channels := channels[purge[id] := channels[purge[id]].(live := false)];
      }
      purge := purge[id := |channels|];
      channels := channels + [Channel(id, true)];
      log := log + [Routed(id)];
    }

    method OnClosed(id: string)
      modifies this
      ensures View() == Close(old(View()), id)
    {
      if id in purge {
        if purge[id] < |channels| {
          channels := channels[purge[id] := channels[purge[id]].(live := false)];
        }
        purge := purge - {id};
        consumed := consumed - {id};
        log := log + [TornDown(id)];
      }
    }

    method OnSignal(m: SignalingMessage, dcOk: bool)
      modifies this
      ensures View() == OnMessage(old(View()), m, dcOk)
    {
      if m.InRoom? && m.payload.NewDataProducer? {
        OnAnnounced(m.payload.dataProducerId);
      } else if m.InRoom? && m.payload.DataConsumed? {
        OnConsumed(m.payload.dataProducerId, m.payload.streamId, dcOk);
      } else if m.InRoom? && m.payload.ProducerClosed? && m.payload.kind.Data? {
        OnClosed(m.payload.producerId);
      }
    }
  }

  // ---- The loop ----

  predicate EndsLoop(e: SignalEvent) {
    e.StopRequested? || e.IceFailed? || e.Fault? || e.Disconnected? || e.Closed?
  }

  datatype Exit = Exited(code: nat) | Running

  /** Setup waits for a send transport, one data producer per label, and a receive transport. */
  function WaitFor(labels: nat, k: nat): Awaited {
    if 0 < k <= labels then DataProducer else Transport
  }

  /** Where wait number k starts, when `at` are the positions of the answers got so far. */
  function WaitStart(at: seq<nat>, k: nat): nat
    requires k <= |at|
  {
    if k == 0 then 0 else at[k - 1] + 1
  }

  /** `at` are the events that the first |at| waits of setup were answered by, each the first one to decide its wait. */
  ghost predicate Waited(labels: nat, events: seq<SignalEvent>, at: seq<nat>) {
    && |at| <= labels + 2
    && forall k :: 0 <= k < |at| ==> WaitDone(labels, events, at, k)
  }

  ghost predicate WaitDone(labels: nat, events: seq<SignalEvent>, at: seq<nat>, k: nat)
    requires k < |at|
  {
    Decides(WaitFor(labels, k), events, WaitStart(at, k), Got(at[k]))
  }

  /** The events answer every wait of setup. */
  ghost predicate SetupSucceeds(labels: nat, events: seq<SignalEvent>) {
    exists at :: Waited(labels, events, at) && |at| == labels + 2
  }

  /** The producers created by the controller: those named by the answers to its producer waits. */
  ghost function CreatedIds(labels: nat, events: seq<SignalEvent>, at: seq<nat>): set<string>
    requires Waited(labels, events, at)
  {
    set k | 0 < k < |at| && k <= labels :: CreatedId(labels, events, at, k)
  }

  ghost function CreatedId(labels: nat, events: seq<SignalEvent>, at: seq<nat>, k: nat): string
    requires Waited(labels, events, at) && 0 < k < |at| && k <= labels
  {
    assert WaitDone(labels, events, at, k);
    events[at[k]].m.payload.dataProducerId
  }

  lemma NextWait(labels: nat, events: seq<SignalEvent>, at: seq<nat>, pos: nat)
    requires Waited(labels, events, at) && |at| < labels + 2
    requires Decides(WaitFor(labels, |at|), events, WaitStart(at, |at|), Got(pos))
    ensures Waited(labels, events, at + [pos])
    ensures 0 < |at| <= labels ==>
              CreatedIds(labels, events, at + [pos])
              == CreatedIds(labels, events, at) + {events[pos].m.payload.dataProducerId}
    ensures |at| == 0 || |at| > labels ==> CreatedIds(labels, events, at + [pos]) == CreatedIds(labels, events, at)
  {
    var more := at + [pos];
    forall k | 0 <= k < |more|
      ensures WaitDone(labels, events, more, k)
    {
      assert WaitStart(more, k) == WaitStart(at, k);
      if k < |at| {
        assert WaitDone(labels, events, at, k);
      }
    }
    assert forall k: nat :: 0 < k < |at| && k <= labels ==>
      CreatedId(labels, events, more, k) == CreatedId(labels, events, at, k);
    if 0 < |at| <= labels {
      assert CreatedId(labels, events, more, |at|) == events[pos].m.payload.dataProducerId;
    }
  }

  lemma OneDecision(what: Awaited, events: seq<SignalEvent>, pos: nat, v: Wait, w: Wait)
    requires Decides(what, events, pos, v) && Decides(what, events, pos, w)
    ensures v == w
  {
  }

  /** The answers of setup are determined by the events. */
  lemma {:induction false} WaitsAgree(labels: nat, events: seq<SignalEvent>, at: seq<nat>, other: seq<nat>, k: nat)
    requires Waited(labels, events, at) && Waited(labels, events, other) && k <= |at| && k <= |other|
    ensures at[..k] == other[..k] && WaitStart(at, k) == WaitStart(other, k)
  {
    if k > 0 {
      WaitsAgree(labels, events, at, other, k - 1);
      assert WaitDone(labels, events, at, k - 1) && WaitDone(labels, events, other, k - 1);
      OneDecision(WaitFor(labels, k - 1), events, WaitStart(at, k - 1), Got(at[k - 1]), Got(other[k - 1]));
      assert at[..k] == at[..k - 1] + [at[k - 1]] && other[..k] == other[..k - 1] + [other[k - 1]];
    }
  }

  /** Setup that stops short at a wait cannot have succeeded on these events. */
  lemma StoppedShort(labels: nat, events: seq<SignalEvent>, at: seq<nat>, w: Wait)
    requires Waited(labels, events, at) && |at| < labels + 2
    requires !w.Got? && Decides(WaitFor(labels, |at|), events, WaitStart(at, |at|), w)
    ensures !SetupSucceeds(labels, events)
  {
    if SetupSucceeds(labels, events) {
      var other :| Waited(labels, events, other) && |other| == labels + 2;
      WaitsAgree(labels, events, at, other, |at|);
      assert WaitDone(labels, events, other, |at|);
      OneDecision(WaitFor(labels, |at|), events, WaitStart(at, |at|), w, Got(other[|at|]));
    }
  }

  /** Where the reading stopped after a wait. */
  function ReadTo(w: Wait, events: seq<SignalEvent>): nat {
    match w case Got(at) => at + 1 case Failed(at) => at + 1 case StillWaiting => |events|
  }

  /** The answers `at`, then the wait that ended setup with `w`: the last one, or the first that got no answer. */
  ghost predicate SetupEnds(labels: nat, events: seq<SignalEvent>, at: seq<nat>, w: Wait) {
    && Waited(labels, events, at)
    && if w.Got? then |at| == labels + 2 && w.at == at[labels + 1]
       else |at| < labels + 2 && Decides(WaitFor(labels, |at|), events, WaitStart(at, |at|), w)
  }

  /**
   Send transport, one data producer per label, receive transport: the first wait that gets no answer ends
   it.  It succeeds exactly when the events answer every wait, `own` is exactly the producers created,
   and every announcement read on the way is cached.
   */
  method Setup(labels: nat, events: seq<SignalEvent>)
    returns (own: set<string>, w: Wait, next: nat, cached: seq<string>, ghost at: seq<nat>)
    ensures SetupEnds(labels, events, at, w)
    ensures w.Got? <==> SetupSucceeds(labels, events)
    ensures own == CreatedIds(labels, events, at)
    ensures next == ReadTo(w, events) <= |events| && cached == Announced(events[..next])
  {
    own, at := {}, [];
    w, next, cached := Await(Transport, events, 0, []);
    var made := 0;
    if w.Got? {
      NextWait(labels, events, at, w.at);
      at := at + [w.at];
    }
    while made < labels && w.Got?
      invariant next == ReadTo(w, events) <= |events| && cached == Announced(events[..next])
      invariant 0 <= made <= labels && Waited(labels, events, at) && own == CreatedIds(labels, events, at)
      invariant w.Got? ==> |at| == made + 1 && WaitStart(at, made + 1) == next
      invariant !w.Got? ==> |at| <= labels && Decides(WaitFor(labels, |at|), events, WaitStart(at, |at|), w)
      decreases labels - made
    {
      w, next, cached := Await(DataProducer, events, next, cached);
      if w.Got? {
        own := own + {events[w.at].m.payload.dataProducerId};
        NextWait(labels, events, at, w.at);
        at := at + [w.at];
      }
      made := made + 1;
    }
    if w.Got? {
      w, next, cached := Await(Transport, events, next, cached);
      if w.Got? {
        NextWait(labels, events, at, w.at);
        at := at + [w.at];
      }
    }
    if !w.Got? {
      StoppedShort(labels, events, at, w);
    }
  }

  /** Announcements cached during setup are consumed before the loop starts. */
  method DrainCache(ledger: ControlLedger, cached: seq<string>)
    requires ledger.View() == Opening(ledger.own)
    modifies ledger
    ensures ledger.View() == Drained(ledger.own, cached)
  {
    for i := 0 to |cached|
      invariant ledger.View() == Drained(ledger.own, cached[..i])
    {
      assert cached[..i + 1][..i] == cached[..i];
      ledger.OnAnnounced(cached[i]);
    }
    assert cached[..|cached|] == cached;
  }

  /** The event that ends the loop is the first of its kind from `start` on; without one all events are read. */
  ghost predicate LoopEnds(events: seq<SignalEvent>, start: nat, stop: nat) {
    && start <= stop <= |events|
    && (forall i :: start <= i < stop ==> !EndsLoop(events[i]))
    && (stop < |events| ==> EndsLoop(events[stop]))
  }

  /** The event loop up to the event that ends it. */
  method RunLoop(ledger: ControlLedger, events: seq<SignalEvent>, dcOk: seq<bool>, start: nat) returns (stop: nat)
    requires |dcOk| == |events| && start <= |events|
    modifies ledger
    ensures LoopEnds(events, start, stop)
    ensures ledger.View() == PlayedTo(old(ledger.View()), events, dcOk, start, stop)
  {
    stop := start;
    ghost var opening := ledger.View();
    while stop < |events| && !EndsLoop(events[stop])
      invariant start <= stop <= |events|
      invariant ledger.View() == PlayedTo(opening, events, dcOk, start, stop)
      invariant forall i :: start <= i < stop ==> !EndsLoop(events[i])
    {
      PlayEvent(ledger, events[stop], dcOk[stop]);
      stop := stop + 1;
    }
  }

  /** The ledger after the loop has read the events from `start` to `stop`. */
  function PlayedTo(opening: Ledger, events: seq<SignalEvent>, dcOk: seq<bool>, start: nat, stop: nat): Ledger
    requires |dcOk| == |events| && start <= stop <= |events|
  {
    if stop == start then opening
    else PlayOne(PlayedTo(opening, events, dcOk, start, stop - 1), events[stop - 1], dcOk[stop - 1])
  }

  lemma {:induction false} PlayedIsPlayedTo(
    opening: Ledger, events: seq<SignalEvent>, dcOk: seq<bool>, start: nat, stop: nat)
    requires |dcOk| == |events| && start <= stop <= |events|
    ensures PlayedTo(opening, events, dcOk, start, stop) == Played(opening, events[start..stop], dcOk[start..stop])
  {
    if start == stop {
      assert events[start..stop] == [];
    } else {
      var k := stop - 1;
      PlayedIsPlayedTo(opening, events, dcOk, start, k);
      PlayedNext(opening, events, dcOk, start, k);
      assert k + 1 == stop;
    }
  }

  method PlayEvent(ledger: ControlLedger, e: SignalEvent, dcOk: bool)
    modifies ledger
    ensures ledger.View() == PlayOne(old(ledger.View()), e, dcOk)
  {
    if e.Message? {
      ledger.OnSignal(e.m, dcOk);
    }
  }

  lemma PlayedNext(opening: Ledger, events: seq<SignalEvent>, dcOk: seq<bool>, start: nat, stop: nat)
    requires |dcOk| == |events| && start <= stop < |events|
    ensures Played(opening, events[start..stop + 1], dcOk[start..stop + 1])
            == PlayOne(Played(opening, events[start..stop], dcOk[start..stop]), events[stop], dcOk[stop])
  {
    assert events[start..stop + 1] == events[start..stop] + [events[stop]];
    assert dcOk[start..stop + 1] == dcOk[start..stop] + [dcOk[stop]];
    PlayedSnoc(opening, events[start..stop], dcOk[start..stop], events[stop], dcOk[stop]);
  }

  lemma PlayedSnoc(opening: Ledger, events: seq<SignalEvent>, dcOk: seq<bool>, e: SignalEvent, ok: bool)
    requires |dcOk| == |events|
    ensures Played(opening, events + [e], dcOk + [ok]) == PlayOne(Played(opening, events, dcOk), e, ok)
  {
    var es, oks := events + [e], dcOk + [ok];
    assert es[..|es| - 1] == events && oks[..|oks| - 1] == dcOk && es[|es| - 1] == e && oks[|oks| - 1] == ok;
  }

  /**
   The whole life of the controller.  It becomes ready exactly when the events answer every wait of setup;
   then its own producers are exactly those it created, and its ledger is what draining the setup cache
   and playing the loop's events gives.  The exit code is 0 exactly for a requested stop.
   */
  method ControlLoop(labels: nat, events: seq<SignalEvent>, dcOk: seq<bool>)
    returns (exit: Exit, ready: bool, start: nat, stop: nat, ledger: ControlLedger, ghost at: seq<nat>, ghost w: Wait)
    requires |dcOk| == |events|
    ensures SetupEnds(labels, events, at, w) && (ready <==> w.Got?) && (ready <==> SetupSucceeds(labels, events))
    ensures start == ReadTo(w, events) <= |events| && ledger.own == CreatedIds(labels, events, at)
    ensures !ready ==> exit == (if w.Failed? then Exited(1) else Running) && ledger.View() == Opening(ledger.own)
    ensures ready ==> LoopEnds(events, start, stop)
    ensures ready ==> start <= stop <= |events| && ledger.View() == Life(ledger.own, events, dcOk, start, stop)
    ensures ready ==> exit == if stop == |events| then Running else Exited(if events[stop].StopRequested? then 0 else 1)
  {
    var own, waited, next, cached, answers := Setup(labels, events);
    w, at, ready, start, stop := waited, answers, waited.Got?, next, next;
    ledger := new ControlLedger(own);
    if !ready {
      exit := if waited.Failed? then Exited(1) else Running;
      return;
    }
    DrainCache(ledger, cached);
    stop := RunLoop(ledger, events, dcOk, start);
    PlayedIsPlayedTo(Drained(own, cached), events, dcOk, start, stop);
    exit := if stop == |events| then Running else Exited(if events[stop].StopRequested? then 0 else 1);
  }

  /** The ledger of a controller that became ready after `start` events and has read `stop` of them. */
  function Life(own: set<string>, events: seq<SignalEvent>, dcOk: seq<bool>, start: nat, stop: nat): Ledger
    requires |dcOk| == |events| && start <= stop <= |events|
  {
    Played(Drained(own, Announced(events[..start])), events[start..stop], dcOk[start..stop])
  }

  // ---- What holds at every moment of every run ----

  /** Consume requests minus teardowns so far. */
  function Balance(l: Ledger, id: string): int {
    multiset(l.log)[ConsumeSent(id)] as int - multiset(l.log)[TornDown(id)] as int
  }

  /** The remote producers that are being consumed. */
  function Remote(l: Ledger): set<string> { l.consumed - l.own }

  /** A live channel is the one its producer's purge entry names. */
  ghost predicate ChannelsOk(l: Ledger) {
    && (forall id :: id in l.purge ==> l.purge[id] < |l.channels| && l.channels[l.purge[id]] == Channel(id, true))
    && (forall i :: 0 <= i < |l.channels| && l.channels[i].live ==>
         l.channels[i].producer in l.purge && l.purge[l.channels[i].producer] == i)
  }

  /** Unanswered consume requests and purge entries only concern producers being consumed, one of each. */
  ghost predicate PairingOk(l: Ledger) {
    && l.own <= l.consumed
    && l.purge.Keys <= Remote(l)
    && (forall id :: l.awaiting[id] <= 1)
    && (forall id :: id in l.awaiting ==> id in Remote(l) && id !in l.purge)
  }

  ghost predicate BalanceOk(l: Ledger) {
    forall id :: Balance(l, id) == if id in Remote(l) then 1 else 0
  }

  ghost predicate OwnNeverConsumed(l: Ledger) {
    forall id :: id in l.own ==> ConsumeSent(id) !in l.log
  }

  ghost predicate Inv(l: Ledger) { ChannelsOk(l) && PairingOk(l) && BalanceOk(l) && OwnNeverConsumed(l) }

  /** A routable answer names a remote producer that is being consumed. */
  predicate Promised(l: Ledger, m: SignalingMessage, dcOk: bool) {
    m.InRoom? && m.payload.DataConsumed? && m.payload.streamId.Some? && dcOk ==>
      m.payload.dataProducerId in Remote(l)
  }

  lemma AnsweredKeepsChannels(l: Ledger, id: string, routable: bool)
    requires ChannelsOk(l)
    ensures ChannelsOk(Answered(l, id, routable))
  {
  }

  lemma CloseKeepsChannels(l: Ledger, id: string)
    requires ChannelsOk(l)
    ensures ChannelsOk(Close(l, id))
  {
  }

  /** At most one live channel per producer needs no promise at all. */
  lemma EventKeepsChannels(l: Ledger, e: SignalEvent, dcOk: bool)
    requires ChannelsOk(l)
    ensures ChannelsOk(PlayOne(l, e, dcOk))
    ensures forall i, j :: 0 <= i < j < |l.channels| && l.channels[i].live && l.channels[j].live ==>
              l.channels[i].producer != l.channels[j].producer
  {
    if e.Message? && e.m.InRoom? {
      match e.m.payload {
        case DataConsumed(id, streamId, _) => AnsweredKeepsChannels(l, id, streamId.Some? && dcOk);
        case ProducerClosed(id, _, _) => CloseKeepsChannels(l, id);
        case _ =>
      }
    }
  }

  lemma AnnounceKeepsInv(l: Ledger, id: string)
    requires Inv(l)
    ensures Inv(Announce(l, id)) && (id !in l.own ==> Balance(Announce(l, id), id) == 1)
  {
    var t := Announce(l, id);
    if id !in l.consumed {
      LogGrows(l.log, ConsumeSent(id));
      assert Remote(t) == Remote(l) + {id};
      assert forall x :: Balance(t, x) == Balance(l, x) + (if x == id then 1 else 0);
    }
  }

  lemma LogGrows(log: seq<Action>, a: Action)
    ensures multiset(log + [a]) == multiset(log) + multiset{a}
    ensures forall x :: x in log + [a] <==> x in log || x == a
  {
  }

  /** A routed answer keeps the pairing exactly when it is for a remote producer being consumed. */
  lemma AnswerKeepsPairing(l: Ledger, id: string, routable: bool)
    requires PairingOk(l)
    ensures PairingOk(Answered(l, id, routable)) <==> (routable ==> id in Remote(l))
  {
    var t := Answered(l, id, routable);
    if routable {
      assert id in t.purge;
    }
    assert forall x :: t.awaiting[x] <= l.awaiting[x];
    assert t.awaiting[id] == 0;
  }

  lemma AnswerKeepsInv(l: Ledger, id: string, routable: bool)
    requires Inv(l)
    ensures Inv(Answered(l, id, routable)) <==> (routable ==> id in Remote(l))
  {
    AnsweredKeepsChannels(l, id, routable);
    AnswerKeepsPairing(l, id, routable);
    AnswerKeepsBalance(l, id, routable);
  }

  lemma AnswerKeepsBalance(l: Ledger, id: string, routable: bool)
    requires BalanceOk(l) && OwnNeverConsumed(l)
    ensures BalanceOk(Answered(l, id, routable)) && OwnNeverConsumed(Answered(l, id, routable))
  {
    var t := Answered(l, id, routable);
    if routable {
      LogGrows(l.log, Routed(id));
    }
    assert Remote(t) == Remote(l) && forall x :: Balance(t, x) == Balance(l, x);
  }

  lemma CloseKeepsPairing(l: Ledger, id: string)
    requires PairingOk(l)
    ensures PairingOk(Close(l, id))
  {
  }

  lemma CloseKeepsBalance(l: Ledger, id: string)
    requires PairingOk(l) && BalanceOk(l) && OwnNeverConsumed(l)
    ensures BalanceOk(Close(l, id)) && OwnNeverConsumed(Close(l, id))
    ensures id in l.purge ==> Balance(Close(l, id), id) == 0
  {
    var t := Close(l, id);
    if id in l.purge {
      LogGrows(l.log, TornDown(id));
      assert Remote(t) == Remote(l) - {id};
      assert forall x :: Balance(t, x) == Balance(l, x) - (if x == id then 1 else 0);
    }
  }

  lemma CloseKeepsInv(l: Ledger, id: string)
    requires Inv(l)
    ensures Inv(Close(l, id)) && (id in l.purge ==> Balance(Close(l, id), id) == 0)
  {
    CloseKeepsChannels(l, id);
    CloseKeepsPairing(l, id);
    CloseKeepsBalance(l, id);
  }

  /** The ledger's invariant survives an event if and only if the event keeps the promise. */
  lemma EventKeepsInv(l: Ledger, e: SignalEvent, dcOk: bool)
    requires Inv(l)
    ensures Inv(PlayOne(l, e, dcOk)) <==> (e.Message? ==> Promised(l, e.m, dcOk))
  {
    if !e.Message? || !e.m.InRoom? {
    } else if e.m.payload.NewDataProducer? {
      AnnounceKeepsInv(l, e.m.payload.dataProducerId);
    } else if e.m.payload.DataConsumed? {
      AnswerKeepsInv(l, e.m.payload.dataProducerId, e.m.payload.streamId.Some? && dcOk);
    } else if e.m.payload.ProducerClosed? {
      CloseKeepsInv(l, e.m.payload.producerId);
    }
  }

  lemma EventKeepsOwn(l: Ledger, e: SignalEvent, dcOk: bool)
    ensures PlayOne(l, e, dcOk).own == l.own
  {
  }

  lemma {:induction false} DrainKeepsInv(own: set<string>, cached: seq<string>)
    ensures Inv(Drained(own, cached)) && Drained(own, cached).own == own
  {
    if cached != [] {
      DrainKeepsInv(own, cached[..|cached| - 1]);
      AnnounceKeepsInv(Drained(own, cached[..|cached| - 1]), cached[|cached| - 1]);
    }
  }

  lemma {:induction false} DrainConsumes(own: set<string>, cached: seq<string>, id: string)
    requires id in cached
    ensures id in Drained(own, cached).consumed
  {
    var init, last := cached[..|cached| - 1], cached[|cached| - 1];
    if id != last {
      assert cached == init + [last];
      DrainConsumes(own, init, id);
    }
  }

  predicate AllPromised(opening: Ledger, events: seq<SignalEvent>, dcOk: seq<bool>)
    requires |dcOk| == |events|
  {
    events == [] ||
    (AllPromised(opening, events[..|events| - 1], dcOk[..|dcOk| - 1])
     && (events[|events| - 1].Message? ==>
         Promised(Played(opening, events[..|events| - 1], dcOk[..|dcOk| - 1]),
                  events[|events| - 1].m, dcOk[|dcOk| - 1])))
  }

  /**
   Main result.  Whatever was announced during setup and whatever order the loop's events come in: at
   every moment each remote producer has been consumed once more than torn down if it is being consumed
   and equally often otherwise, own producers are never consumed, and a producer has at most one live
   channel.
   */
  lemma {:induction false} LedgerIsExact(
    own: set<string>, cached: seq<string>, events: seq<SignalEvent>, dcOk: seq<bool>)
    requires |dcOk| == |events| && AllPromised(Drained(own, cached), events, dcOk)
    ensures var l := Played(Drained(own, cached), events, dcOk);
            && Inv(l) && l.own == own
            && (forall id :: 0 <= Balance(l, id) <= 1)
            && (forall i, j :: 0 <= i < j < |l.channels| && l.channels[i].live && l.channels[j].live ==>
                 l.channels[i].producer != l.channels[j].producer)
  {
    var l := Played(Drained(own, cached), events, dcOk);
    if events == [] {
      DrainKeepsInv(own, cached);
    } else {
      LedgerIsExact(own, cached, events[..|events| - 1], dcOk[..|dcOk| - 1]);
      var before := Played(Drained(own, cached), events[..|events| - 1], dcOk[..|dcOk| - 1]);
      EventKeepsInv(before, events[|events| - 1], dcOk[|dcOk| - 1]);
      EventKeepsOwn(before, events[|events| - 1], dcOk[|dcOk| - 1]);
    }
    EventKeepsChannels(l, Connected, true);
  }

  /** The ledger is right after every prefix of the loop's events. */
  ghost predicate InvThroughout(opening: Ledger, events: seq<SignalEvent>, dcOk: seq<bool>)
    requires |dcOk| == |events|
  {
    Inv(Played(opening, events, dcOk)) &&
    (events == [] || InvThroughout(opening, events[..|events| - 1], dcOk[..|dcOk| - 1]))
  }

  /** The ledger is right at every moment of a run if and only if every event of it keeps the promise. */
  lemma {:induction false} LedgerIsRightIffPromised(
    own: set<string>, cached: seq<string>, events: seq<SignalEvent>, dcOk: seq<bool>)
    requires |dcOk| == |events|
    ensures InvThroughout(Drained(own, cached), events, dcOk) <==> AllPromised(Drained(own, cached), events, dcOk)
  {
    if events == [] {
      DrainKeepsInv(own, cached);
    } else {
      var init, oks := events[..|events| - 1], dcOk[..|dcOk| - 1];
      LedgerIsRightIffPromised(own, cached, init, oks);
      if InvThroughout(Drained(own, cached), init, oks) {
        EventKeepsInv(Played(Drained(own, cached), init, oks), events[|events| - 1], dcOk[|dcOk| - 1]);
      }
    }
  }

  /** The server answers each `ConsumeData` of this controller at most once and sends it no other answers. */
  predicate OneAnswerEach(opening: Ledger, events: seq<SignalEvent>, dcOk: seq<bool>)
    requires |dcOk| == |events|
  {
    events == [] ||
    (OneAnswerEach(opening, events[..|events| - 1], dcOk[..|dcOk| - 1])
     && (var e := events[|events| - 1];
         e.Message? && e.m.InRoom? && e.m.payload.DataConsumed? ==>
           e.m.payload.dataProducerId in Played(opening, events[..|events| - 1], dcOk[..|dcOk| - 1]).awaiting))
  }

  /** Such a server keeps the promise throughout the run. */
  lemma {:induction false} OneAnswerEachIsEnough(
    own: set<string>, cached: seq<string>, events: seq<SignalEvent>, dcOk: seq<bool>)
    requires |dcOk| == |events| && OneAnswerEach(Drained(own, cached), events, dcOk)
    ensures AllPromised(Drained(own, cached), events, dcOk)
  {
    if events != [] {
      OneAnswerEachIsEnough(own, cached, events[..|events| - 1], dcOk[..|dcOk| - 1]);
      LedgerIsExact(own, cached, events[..|events| - 1], dcOk[..|dcOk| - 1]);
    }
  }

  /** An announcement of a remote producer, cached in setup or read by the loop, is acted on at once. */
  lemma AnnouncedIsConsumed(
    own: set<string>, cached: seq<string>, events: seq<SignalEvent>, dcOk: seq<bool>, id: string)
    requires |dcOk| == |events| && AllPromised(Drained(own, cached), events, dcOk) && id !in own
    ensures id in cached ==> Balance(Drained(own, cached), id) == 1
    ensures events != [] && IsAnnouncement(events[|events| - 1])
            && events[|events| - 1].m.payload.dataProducerId == id ==>
              Balance(Played(Drained(own, cached), events, dcOk), id) == 1
  {
    DrainKeepsInv(own, cached);
    if id in cached {
      DrainConsumes(own, cached, id);
    }
    if events != [] {
      LedgerIsExact(own, cached, events[..|events| - 1], dcOk[..|dcOk| - 1]);
      AnnounceKeepsInv(Played(Drained(own, cached), events[..|events| - 1], dcOk[..|dcOk| - 1]), id);
    }
  }

  /**
   The producers a controller created in a successful setup are never consumed by it, whatever it read,
   and every other producer announced during setup was consumed exactly once when the loop started.
   */
  lemma CreatedProducersAreNeverConsumed(
    labels: nat, events: seq<SignalEvent>, dcOk: seq<bool>, at: seq<nat>, stop: nat)
    requires |dcOk| == |events| && Waited(labels, events, at) && |at| == labels + 2
    requires WaitStart(at, |at|) <= stop <= |events|
    requires var start := WaitStart(at, |at|);
             AllPromised(Drained(CreatedIds(labels, events, at), Announced(events[..start])),
                         events[start..stop], dcOk[start..stop])
    ensures var start := WaitStart(at, |at|);
            var own := CreatedIds(labels, events, at);
            && (forall k :: 1 <= k <= labels ==>
                 ConsumeSent(CreatedId(labels, events, at, k)) !in Life(own, events, dcOk, start, stop).log)
            && (forall id :: id in Announced(events[..start]) && id !in own ==>
                 Balance(Drained(own, Announced(events[..start])), id) == 1)
  {
    var start, own := WaitStart(at, |at|), CreatedIds(labels, events, at);
    var cached := Announced(events[..start]);
    LedgerIsExact(own, cached, events[start..stop], dcOk[start..stop]);
    forall k | 1 <= k <= labels
      ensures ConsumeSent(CreatedId(labels, events, at, k)) !in Life(own, events, dcOk, start, stop).log
    {
      assert CreatedId(labels, events, at, k) in own;
    }
    forall id | id in cached && id !in own ensures Balance(Drained(own, cached), id) == 1 {
      AnnouncedIsConsumed(own, cached, [], [], id);
    }
  }

  /** A close tears down exactly when a channel was routed; otherwise the ledger does not change. */
  lemma CloseTearsDownIffRouted(l: Ledger, id: string)
    requires Inv(l)
    ensures id in l.purge <==> Close(l, id) != l
    ensures id in l.purge ==> Balance(l, id) == 1 && id !in Close(l, id).consumed
    ensures id !in l.purge ==>
              Announce(Close(l, id), id).log == if id in l.consumed then l.log else l.log + [ConsumeSent(id)]
  {
    if id in l.purge {
      assert id !in Close(l, id).purge;
    }
  }

  /** The live channels of a producer. */
  function LiveChannels(l: Ledger, id: string): set<nat> {
    set i | 0 <= i < |l.channels| && l.channels[i] == Channel(id, true)
  }

  lemma RoutedIsTheLiveChannel(l: Ledger, id: string)
    requires ChannelsOk(l)
    ensures LiveChannels(l, id) == if id in l.purge then {l.purge[id]} else {}
  {
  }

  /**
   A close event, whatever it names: closes of audio and video producers change nothing, and the close of
   a routed data producer leaves no live channel of it and lets it be consumed again.
   */
  lemma CloseEventTearsDown(l: Ledger, room: string, id: string, kind: MediaKind, body: string, dcOk: bool)
    requires Inv(l)
    ensures var t := PlayOne(l, Message(InRoom(room, ProducerClosed(id, kind, body))), dcOk);
            && (kind.Audio? || kind.Video? || LiveChannels(l, id) == {} ==> t == l)
            && (kind.Data? ==> LiveChannels(t, id) == {})
            && (kind.Data? && LiveChannels(l, id) != {} ==>
                id !in t.consumed && t.log == l.log + [TornDown(id)]
                && Announce(t, id).log == t.log + [ConsumeSent(id)])
            && (forall x :: x != id ==>
                 LiveChannels(t, x) == LiveChannels(l, x) && (x in t.consumed <==> x in l.consumed))
  {
    assert PlayOne(l, Message(InRoom(room, ProducerClosed(id, kind, body))), dcOk)
        == if kind.Data? then Close(l, id) else l;
    CloseSilences(l, id);
  }

  lemma CloseSilences(l: Ledger, id: string)
    requires Inv(l)
    ensures var t := Close(l, id);
            && (LiveChannels(l, id) == {} ==> t == l)
            && LiveChannels(t, id) == {}
            && (LiveChannels(l, id) != {} ==> id !in t.consumed && t.log == l.log + [TornDown(id)])
            && (forall x :: x != id ==>
                 LiveChannels(t, x) == LiveChannels(l, x) && (x in t.consumed <==> x in l.consumed))
  {
    var t := Close(l, id);
    CloseKeepsChannels(l, id);
    RoutedIsTheLiveChannel(l, id);
    RoutedIsTheLiveChannel(t, id);
    forall x | x != id ensures LiveChannels(t, x) == LiveChannels(l, x) {
      RoutedIsTheLiveChannel(l, x);
      RoutedIsTheLiveChannel(t, x);
    }
  }

  /** An answer event: an awaited producer gets exactly one live channel when it can be routed, and none otherwise. */
  lemma AnswerEventRoutes(l: Ledger, room: string, id: string, streamId: Option<nat>, body: string, dcOk: bool)
    requires Inv(l) && id in l.awaiting
    ensures var t := PlayOne(l, Message(InRoom(room, DataConsumed(id, streamId, body))), dcOk);
            && LiveChannels(t, id) == (if streamId.Some? && dcOk then {|l.channels|} else {})
            && |t.channels| == |l.channels| + (if streamId.Some? && dcOk then 1 else 0)
            && id !in t.awaiting && t.consumed == l.consumed
            && (forall x :: x != id ==> LiveChannels(t, x) == LiveChannels(l, x))
  {
    var t := PlayOne(l, Message(InRoom(room, DataConsumed(id, streamId, body))), dcOk);
    AnsweredKeepsChannels(l, id, streamId.Some? && dcOk);
    RoutedIsTheLiveChannel(t, id);
    forall x | x != id ensures LiveChannels(t, x) == LiveChannels(l, x) {
      RoutedIsTheLiveChannel(l, x);
      RoutedIsTheLiveChannel(t, x);
    }
  }

  /** An announcement event: a producer not being consumed is asked for once, and is awaited from then on. */
  lemma AnnouncementEventConsumes(l: Ledger, room: string, id: string, body: string, dcOk: bool)
    requires Inv(l)
    ensures var t := PlayOne(l, Message(InRoom(room, NewDataProducer(id, body))), dcOk);
            && id in t.consumed && t.channels == l.channels
            && (id in l.consumed ==> t == l)
            && (id !in l.consumed ==> t.log == l.log + [ConsumeSent(id)] && id in t.awaiting)
  {
  }

  /** Every other event leaves the ledger alone. */
  lemma OtherEventsChangeNothing(l: Ledger, e: SignalEvent, dcOk: bool)
    requires e.Message? && e.m.InRoom? ==>
               !e.m.payload.NewDataProducer? && !e.m.payload.DataConsumed? && !e.m.payload.ProducerClosed?
    ensures PlayOne(l, e, dcOk) == l
  {
  }

  /** The loop reads on after messages and connects, and ends at everything else. */
  lemma OnlyMessagesKeepTheLoop(e: SignalEvent)
    ensures EndsLoop(e) <==> !e.Message? && !e.Connected?
  {
  }

  /** What ends a wait of setup, event by event; an acknowledgement of the connect is an error in name only. */
  lemma WhatEndsAWait(what: Awaited, room: string, id: string, code: nat, text: string, body: string)
    ensures IsWanted(what, Message(InRoom(room, WebRtcTransportCreated(id, body)))) <==> what == Transport
    ensures IsWanted(what, Message(InRoom(room, DataProducerCreated(id)))) <==> what == DataProducer
    ensures !IsFatal(Message(Error(code, "transport_connected")))
    ensures text != "transport_connected" ==> IsFatal(Message(Error(code, text)))
    ensures IsFatal(Disconnected) && IsFatal(Fault) && IsFatal(Closed) && !IsFatal(Connected)
    ensures !IsWanted(what, Message(Error(code, text)))
  {
  }

  /** No other message ends a wait. */
  lemma OtherMessagesAreReadPast(what: Awaited, m: SignalingMessage)
    requires !m.Error? && (m.InRoom? ==> !m.payload.WebRtcTransportCreated? && !m.payload.DataProducerCreated?)
    ensures !IsWanted(what, Message(m)) && !IsFatal(Message(m))
  {
  }

  /**
   The promise is needed: `DataConsumed` is a room-level broadcast to all children, and one meant for
   another process and naming an own producer makes the controller consume that producer later.
   */
  lemma ForeignAnswerBreaksTheLedger(own: set<string>, id: string)
    requires id in own
    ensures var l := Announce(Close(Answered(Opening(own), id, true), id), id);
            ConsumeSent(id) in l.log && !OwnNeverConsumed(l)
  {
    var l := Announce(Close(Answered(Opening(own), id, true), id), id);
    assert l.log[|l.log| - 1] == ConsumeSent(id);
  }
}
