/**
 The client's reconnect supervisor: one forwarder per session generation, a mailbox of dead notices,
 one-shot resume tickets and capped exponential backoff.

 `Step` is one interleaving step of the supervisor task, the forwarder tasks and the application.
 The history fields `presented` and `sleeps` record what reached the network and the timer.
 */
module Supervisor {
  import opened Numbers
  import opened Wrappers

  // ---- Backoff ----

  /** Milliseconds; a duration saturates at the largest representable one. */
  const DURATION_MAX: nat := 0x1_0000_0000_0000_0000 * 1000 - 1

  datatype ReconnectParams = ReconnectParams(base: nat, max: nat)

  const DEFAULT_PARAMS := ReconnectParams(200, 5000)

  function SaturatingDouble(d: nat): nat { Min(d * 2, DURATION_MAX) }

  function NextDelay(p: ReconnectParams, delay: nat): nat { Min(SaturatingDouble(delay), p.max) }

  function Pow2(k: nat): nat { if k == 0 then 1 else 2 * Pow2(k - 1) }

  /** The sleep that follows the failed attempt number k + 1 of a chain. */
  function Backoff(p: ReconnectParams, k: nat): nat {
    if k == 0 then p.base else Min(p.base * Pow2(k), p.max)
  }

  predicate Representable(p: ReconnectParams) { p.base <= DURATION_MAX && p.max <= DURATION_MAX }

  lemma BackoffDoubles(p: ReconnectParams, k: nat)
    requires Representable(p)
    ensures NextDelay(p, Backoff(p, k)) == Backoff(p, k + 1)
  {
    assert p.base * Pow2(k + 1) == 2 * (p.base * Pow2(k));
    if k > 0 && p.base * Pow2(k) >= p.max {
      assert Backoff(p, k) == p.max;
    }
  }

  /** The first sleep is not capped, so the capped closed form holds for it exactly when base <= max. */
  lemma CappedFromTheStart(p: ReconnectParams)
    ensures (forall k: nat :: Backoff(p, k) == Min(p.base * Pow2(k), p.max)) <==> p.base <= p.max
  {
    assert Pow2(0) == 1;
    if p.base > p.max {
      assert Backoff(p, 0) != Min(p.base * Pow2(0), p.max);
    }
  }

  lemma CappedBackoff(p: ReconnectParams, k: nat)
    requires p.base <= p.max
    ensures Backoff(p, k) == Min(p.base * Pow2(k), p.max)
  {
    assert Pow2(0) == 1;
  }

  /** Outcome of one connect attempt. */
  datatype Attempt = Connected | Retryable | Terminal

  datatype ChainEnd = Healed | GaveUp | Stopped | StillTrying

  /**
   One reconnect chain as the supervisor runs it: the ticket rides on the first attempt only, and the
   n-th failure is followed by the n-th backoff.  `stop` says whether a shutdown is seen in a sleep.
   */
  method ReconnectChain(p: ReconnectParams, nonce: Option<nat>, outcomes: seq<Attempt>, stop: seq<bool>)
    returns (tickets: seq<Option<nat>>, sleeps: seq<nat>, end: ChainEnd)
    requires Representable(p) && |stop| == |outcomes|
    ensures |tickets| <= |outcomes|
    ensures forall i :: 0 <= i < |tickets| ==> tickets[i] == if i == 0 then nonce else None
    ensures forall i :: 0 <= i < |sleeps| ==> sleeps[i] == Backoff(p, i)
    ensures forall i :: 0 <= i < |tickets| - 1 ==> outcomes[i].Retryable? && !stop[i]
    ensures match end
            case Healed => 0 < |tickets| && outcomes[|tickets| - 1].Connected? && |sleeps| == |tickets| - 1
            case GaveUp => 0 < |tickets| && outcomes[|tickets| - 1].Terminal? && |sleeps| == |tickets| - 1
            case Stopped => 0 < |tickets| && outcomes[|tickets| - 1].Retryable? && stop[|tickets| - 1]
                            && |sleeps| == |tickets|
            case StillTrying => |tickets| == |outcomes| == |sleeps|
                                && forall i :: 0 <= i < |outcomes| ==> outcomes[i].Retryable? && !stop[i]
  {
    tickets, sleeps, end := [], [], StillTrying;
    var delay, pendingNonce, i := p.base, nonce, 0;
    while i < |outcomes|
      invariant 0 <= i <= |outcomes| && |tickets| == i == |sleeps| && end == StillTrying
      invariant pendingNonce == if i == 0 then nonce else None
      invariant delay == Backoff(p, i)
      invariant forall j :: 0 <= j < i ==> tickets[j] == if j == 0 then nonce else None
      invariant forall j :: 0 <= j < i ==> sleeps[j] == Backoff(p, j)
      invariant forall j :: 0 <= j < i ==> outcomes[j].Retryable? && !stop[j]
    {
      tickets := tickets + [pendingNonce];
      pendingNonce := None;
      match outcomes[i] {
        case Connected =>
          end := Healed;
          return;
        case Terminal =>
          end := GaveUp;
          return;
        case Retryable =>
          sleeps := sleeps + [delay];
          if stop[i] {
            end := Stopped;
            return;
          }
          BackoffDoubles(p, i);
          delay := NextDelay(p, delay);
          i := i + 1;
      }
    }
  }

  // ---- The concurrent machine ----

  datatype ConnectionState = Disconnected | Up | Reconnecting | Failed

  /** Where the supervisor task is. */
  datatype Phase =
    | Parked
    | Attempting(delay: nat, nonce: Option<nat>, failures: nat)
    | Connecting(delay: nat, failures: nat)
    | Sleeping(delay: nat, failures: nat)
    | Replaying
    | Draining
    | Exited

  /**
   `session` numbers the sessions, and its resume ticket is that number (`ticket` says whether the
   server issued one).  `live` is the set of generations whose forwarder is running, `notices` the
   unread dead notices by generation.  `slot` is the ticket stored in the client.  `state` is what the
   state watch holds and `watchers` the number of its receivers.
   */
  datatype System = System(
    phase: Phase,
    state: ConnectionState,
    watchers: nat,
    session: nat,
    ticket: bool,
    live: set<nat>,
    notices: seq<nat>,
    slot: Option<nat>,
    shutdown: bool,
    autoReconnect: bool,
    presented: seq<nat>,
    sleeps: seq<(nat, nat)>,
    lostNotice: bool)

  datatype Step =
    | SetAuto(on: bool)
    | Watch
    | Unwatch
    | Shutdown
    | ForwarderDies(gen: nat)
    | ForwarderStops(gen: nat)
    | SupervisorStops
    | TakeNotice
    | BeginAttempt
    | PresentTicket
    | ConnectOk(ticket: bool)
    | ConnectRetryable
    | ConnectTerminal
    | WakeUp
    | ReplayDone
    | DrainOne
    | DrainDone

  predicate Enabled(s: System, step: Step) {
    match step
    case SetAuto(_) => true
    case Watch => true
    case Unwatch => s.watchers > 0
    case Shutdown => true
    // a broken or released session ends its forwarder with a dead notice; a shutdown ends it without one
    case ForwarderDies(g) => g in s.live
    case ForwarderStops(g) => g in s.live && s.shutdown
    // shutdown broadcasts and then aborts the supervisor task, wherever it waits
    case SupervisorStops => s.shutdown
    case TakeNotice => s.phase.Parked? && s.notices != []
    case BeginAttempt => s.phase.Attempting?
    case PresentTicket => s.phase.Connecting? && s.slot.Some?
    case ConnectOk(_) => s.phase.Connecting?
    case ConnectRetryable => s.phase.Connecting?
    case ConnectTerminal => s.phase.Connecting?
    case WakeUp => s.phase.Sleeping?
    case ReplayDone => s.phase.Replaying?
    case DrainOne => s.phase.Draining? && s.notices != []
    case DrainDone => s.phase.Draining? && s.notices == []
  }

  /** The watch's `send` fails and stores nothing while it has no receiver; the failure is ignored. */
  function SetState(s: System, state: ConnectionState): System {
    if s.watchers > 0 then s.(state := state) else s
  }

  function Apply(p: ReconnectParams, s: System, step: Step): System
    requires Enabled(s, step)
  {
    match step
    case SetAuto(on) => s.(autoReconnect := on)
    case Watch => s.(watchers := s.watchers + 1)
    case Unwatch => s.(watchers := s.watchers - 1)
    case Shutdown => s.(shutdown := true)
    case ForwarderDies(g) => s.(live := s.live - {g}, notices := s.notices + [g])
    case ForwarderStops(g) => s.(live := s.live - {g})
    case SupervisorStops => s.(phase := Exited)
    case TakeNotice =>
      var t := s.(notices := s.notices[1..]);
      if !s.autoReconnect || s.state == Failed then SetState(t.(phase := Exited), Disconnected)
      else SetState(t.(phase := Attempting(p.base, if s.ticket then Some(s.session) else None, 0)), Reconnecting)
    case BeginAttempt => s.(slot := s.phase.nonce, phase := Connecting(s.phase.delay, s.phase.failures))
    case PresentTicket => s.(slot := None, presented := s.presented + [s.slot.value])
    case ConnectOk(ticket) =>
      s.(session := s.session + 1, ticket := ticket, live := s.live + {s.session + 1}, phase := Replaying,
         lostNotice := false)
    case ConnectRetryable =>
      s.(phase := Sleeping(s.phase.delay, s.phase.failures + 1),
         sleeps := s.sleeps + [(s.phase.failures + 1, s.phase.delay)])
    case ConnectTerminal => SetState(s.(phase := Exited), Failed)
    case WakeUp => s.(phase := Attempting(NextDelay(p, s.phase.delay), None, s.phase.failures))
    case ReplayDone => SetState(s.(phase := Draining), Up)
    case DrainOne => s.(notices := s.notices[1..], lostNotice := s.lostNotice || s.notices[0] == s.session)
    case DrainDone => s.(phase := Parked)
  }

  /** After connect: the first session is up, its forwarder runs, the supervisor waits and nobody watches the state. */
  function Start(ticket: bool): System {
    System(Parked, Up, 0, 0, ticket, {0}, [], None, false, true, [], [], false)
  }

  predicate Legal(p: ReconnectParams, s: System, steps: seq<Step>)
    decreases |steps|, 0
  {
    steps == [] ||
    (Legal(p, s, steps[..|steps| - 1]) && Enabled(Exec(p, s, steps[..|steps| - 1]), steps[|steps| - 1]))
  }

  function Exec(p: ReconnectParams, s: System, steps: seq<Step>): System
    requires Legal(p, s, steps)
    decreases |steps|, 1
  {
    if steps == [] then s else Apply(p, Exec(p, s, steps[..|steps| - 1]), steps[|steps| - 1])
  }

  // ---- Invariant ----

  /** Between a break and the next success the supervisor has consumed the only notice there was. */
  predicate InChain(s: System) {
    s.phase.Attempting? || s.phase.Connecting? || s.phase.Sleeping?
  }

  /**
   The newest generation is accounted for exactly once: its forwarder runs, or its notice is unread,
   or the supervisor took it (and is in a chain or gone), or the drain threw it away, or a shutdown
   stopped it.
   */
  predicate AccountedOnce(s: System) {
    && s.live <= {s.session}
    && (s.notices == [] || s.notices == [s.session])
    && (s.notices != [] ==> s.live == {})
    && (InChain(s) ==> s.live == {} && s.notices == [])
    && (!InChain(s) && !s.phase.Exited? && !s.shutdown ==> (s.lostNotice <==> s.live == {} && s.notices == []))
    && (s.phase.Replaying? ==> !s.lostNotice)
  }

  /** The recorded sleeps, and the next one, are the backoffs of their attempts. */
  predicate SleepsOk(p: ReconnectParams, sleeps: seq<(nat, nat)>) {
    forall i :: 0 <= i < |sleeps| ==> sleeps[i].0 >= 1 && sleeps[i].1 == Backoff(p, sleeps[i].0 - 1)
  }

  predicate DelayOk(p: ReconnectParams, phase: Phase) {
    && (phase.Attempting? || phase.Connecting? ==> phase.delay == Backoff(p, phase.failures))
    && (phase.Sleeping? ==> phase.failures >= 1 && phase.delay == Backoff(p, phase.failures - 1))
  }

  predicate OncePresented(presented: seq<nat>, session: nat) {
    && (forall i, j :: 0 <= i < j < |presented| ==> presented[i] != presented[j])
    && (forall t :: t in presented ==> t <= session)
  }

  /** No ticket was presented twice, and one that is still to be presented has not been presented. */
  predicate TicketsOnce(s: System) {
    && OncePresented(s.presented, s.session)
    && (s.session in s.presented ==> InChain(s) || s.phase.Exited?)
    && (s.phase.Attempting? && s.phase.nonce.Some? ==>
        s.phase.nonce.value == s.session && s.session !in s.presented && s.phase.failures == 0)
    && (s.phase.Connecting? && s.slot.Some? ==> s.slot.value == s.session && s.session !in s.presented)
  }

  predicate EndsOnlyOnceEnded(s: System) {
    s.state == Failed || s.state == Disconnected ==> s.phase.Exited?
  }

  predicate Inv(p: ReconnectParams, s: System) {
    AccountedOnce(s) && TicketsOnce(s) && SleepsOk(p, s.sleeps) && DelayOk(p, s.phase) && EndsOnlyOnceEnded(s)
  }

  lemma StepKeepsAccount(p: ReconnectParams, s: System, step: Step)
    requires AccountedOnce(s) && Enabled(s, step)
    ensures AccountedOnce(Apply(p, s, step))
  {
  }

  lemma StepKeepsTickets(p: ReconnectParams, s: System, step: Step)
    requires TicketsOnce(s) && Enabled(s, step)
    ensures TicketsOnce(Apply(p, s, step))
  {
  }

  lemma StepKeepsSleeps(p: ReconnectParams, s: System, step: Step)
    requires Representable(p) && SleepsOk(p, s.sleeps) && DelayOk(p, s.phase) && Enabled(s, step)
    ensures SleepsOk(p, Apply(p, s, step).sleeps) && DelayOk(p, Apply(p, s, step).phase)
  {
    if step.WakeUp? {
      BackoffDoubles(p, s.phase.failures - 1);
    }
  }

  lemma StepKeepsEnd(p: ReconnectParams, s: System, step: Step)
    requires EndsOnlyOnceEnded(s) && Enabled(s, step)
    ensures EndsOnlyOnceEnded(Apply(p, s, step))
  {
  }

  lemma StepKeepsInv(p: ReconnectParams, s: System, step: Step)
    requires Representable(p) && Inv(p, s) && Enabled(s, step)
    ensures Inv(p, Apply(p, s, step))
  {
    StepKeepsAccount(p, s, step);
    StepKeepsTickets(p, s, step);
    StepKeepsSleeps(p, s, step);
    StepKeepsEnd(p, s, step);
  }

  lemma {:induction false} RunsKeepInv(p: ReconnectParams, ticket: bool, steps: seq<Step>)
    requires Representable(p) && Legal(p, Start(ticket), steps)
    ensures Inv(p, Exec(p, Start(ticket), steps))
    decreases |steps|
  {
    if steps != [] {
      RunsKeepInv(p, ticket, steps[..|steps| - 1]);
      StepKeepsInv(p, Exec(p, Start(ticket), steps[..|steps| - 1]), steps[|steps| - 1]);
    }
  }

  // ---- Results ----

  /** Live forwarders plus unread notices never exceed one, at any point of any run. */
  lemma AtMostOneBreakInFlight(p: ReconnectParams, ticket: bool, steps: seq<Step>)
    requires Representable(p) && Legal(p, Start(ticket), steps)
    ensures var s := Exec(p, Start(ticket), steps); |s.live| + |s.notices| <= 1
  {
    RunsKeepInv(p, ticket, steps);
    var s := Exec(p, Start(ticket), steps);
    assert s.live == {} || s.live == {s.session};
  }

  /** Since the last successful connect, a forwarder died while the consumers were replayed or the mailbox drained. */
  predicate DiedEarly(p: ReconnectParams, s: System, steps: seq<Step>)
    requires Legal(p, s, steps)
    decreases |steps|
  {
    steps != [] &&
    var init, last := steps[..|steps| - 1], steps[|steps| - 1];
    !last.ConnectOk? && (DiedEarly(p, s, init) || (last.ForwarderDies? && AfterConnect(Exec(p, s, init))))
  }

  predicate AfterConnect(s: System) { s.phase.Replaying? || s.phase.Draining? }

  /** How the deaths in the run so far show in the state. */
  predicate DeathShows(s: System, died: bool) {
    && (s.phase.Parked? ==> (died <==> s.lostNotice))
    && (AfterConnect(s) ==> (died <==> s.lostNotice || s.notices != []))
  }

  lemma StepShowsDeath(p: ReconnectParams, s: System, step: Step, died: bool)
    requires Inv(p, s) && Enabled(s, step) && DeathShows(s, died)
    ensures DeathShows(Apply(p, s, step), !step.ConnectOk? && (died || (step.ForwarderDies? && AfterConnect(s))))
  {
  }

  lemma {:induction false} RunsShowDeath(p: ReconnectParams, ticket: bool, steps: seq<Step>)
    requires Representable(p) && Legal(p, Start(ticket), steps)
    ensures DeathShows(Exec(p, Start(ticket), steps), DiedEarly(p, Start(ticket), steps))
    decreases |steps|
  {
    if steps != [] {
      var init := steps[..|steps| - 1];
      RunsShowDeath(p, ticket, init);
      RunsKeepInv(p, ticket, init);
      StepShowsDeath(p, Exec(p, Start(ticket), init), steps[|steps| - 1], DiedEarly(p, Start(ticket), init));
    }
  }

  /**
   A supervisor parked in a connected session has exactly one forwarder or notice, so that a later break
   starts a reconnect chain, if and only if the session's forwarder did not die between the connect and
   the end of the drain; otherwise no break can be noticed any more.
   */
  lemma ParkedCanStillHealIffNoEarlyDeath(p: ReconnectParams, ticket: bool, steps: seq<Step>)
    requires Representable(p) && Legal(p, Start(ticket), steps)
    requires var s := Exec(p, Start(ticket), steps); s.phase.Parked? && !s.shutdown
    ensures var s := Exec(p, Start(ticket), steps);
            && (|s.live| + |s.notices| == 1 <==> !DiedEarly(p, Start(ticket), steps))
            && (DiedEarly(p, Start(ticket), steps) ==>
                !Enabled(s, TakeNotice) && forall g :: !Enabled(s, ForwarderDies(g)))
  {
    RunsKeepInv(p, ticket, steps);
    RunsShowDeath(p, ticket, steps);
    var s := Exec(p, Start(ticket), steps);
    assert s.live == {} || s.live == {s.session};
  }

  /**
   The drain is there for notices of earlier generations.  It never meets one: whatever it discards, in
   any run, is the new session's own notice, and no other step loses a notice.
   */
  lemma DrainMeetsOnlyTheNewNotice(p: ReconnectParams, ticket: bool, steps: seq<Step>, step: Step)
    requires Representable(p) && Legal(p, Start(ticket), steps) && Enabled(Exec(p, Start(ticket), steps), step)
    ensures var s := Exec(p, Start(ticket), steps);
            && (step.DrainOne? ==> s.notices == [s.session] && s.live == {} && Apply(p, s, step).notices == [])
            && (!s.lostNotice ==> (Apply(p, s, step).lostNotice <==> step.DrainOne?))
  {
    RunsKeepInv(p, ticket, steps);
  }

  /** Once parked without a notice or a forwarder, the supervisor stays parked for good, short of a shutdown. */
  lemma {:induction false} ParkedForGood(p: ReconnectParams, s: System, steps: seq<Step>)
    requires s.phase.Parked? && s.live == {} && s.notices == [] && !s.shutdown
    requires Legal(p, s, steps) && Shutdown !in steps
    ensures var t := Exec(p, s, steps); t == s.(autoReconnect := t.autoReconnect, watchers := t.watchers)
    decreases |steps|
  {
    if steps != [] {
      assert forall x :: x in steps[..|steps| - 1] ==> x in steps;
      ParkedForGood(p, s, steps[..|steps| - 1]);
      assert steps[|steps| - 1] in steps;
    }
  }

  lemma Then(p: ReconnectParams, s: System, steps: seq<Step>, step: Step) returns (more: seq<Step>, t: System)
    requires Legal(p, s, steps) && Enabled(Exec(p, s, steps), step)
    ensures Legal(p, s, more) && t == Exec(p, s, more) == Apply(p, Exec(p, s, steps), step)
  {
    more := steps + [step];
    assert more[..|more| - 1] == steps;
    t := Exec(p, s, more);
  }

  lemma BreakNoticed(p: ReconnectParams, ticket: bool, watched: bool) returns (steps: seq<Step>)
    ensures Legal(p, Start(ticket), steps)
    ensures var t := Exec(p, Start(ticket), steps);
            && t.phase.Attempting? && t.session == 0 && t.live == {} && t.notices == []
            && !t.shutdown && t.autoReconnect
            && t.watchers == (if watched then 1 else 0) && t.state == if watched then Reconnecting else Up
  {
    var t;
    steps := [];
    if watched {
      steps, t := Then(p, Start(ticket), steps, Watch);
    }
    steps, t := Then(p, Start(ticket), steps, ForwarderDies(0));
    steps, t := Then(p, Start(ticket), steps, TakeNotice);
  }

  lemma AttemptSucceeds(p: ReconnectParams, ticket: bool, chain: seq<Step>) returns (steps: seq<Step>)
    requires Legal(p, Start(ticket), chain) && Exec(p, Start(ticket), chain).phase.Attempting?
    ensures Legal(p, Start(ticket), steps)
    ensures var s, t := Exec(p, Start(ticket), chain), Exec(p, Start(ticket), steps);
            && t == s.(phase := Replaying, slot := t.slot, session := t.session, ticket := ticket, live := t.live,
                       lostNotice := false)
            && t.session == s.session + 1 && t.live == s.live + {t.session}
  {
    var t;
    steps, t := Then(p, Start(ticket), chain, BeginAttempt);
    steps, t := Then(p, Start(ticket), steps, ConnectOk(ticket));
  }

  lemma ReconnectOnce(p: ReconnectParams, ticket: bool, watched: bool) returns (steps: seq<Step>)
    ensures Legal(p, Start(ticket), steps)
    ensures var t := Exec(p, Start(ticket), steps);
            && t.phase.Replaying? && t.live == {1} && t.notices == [] && !t.shutdown && t.autoReconnect
            && t.watchers == (if watched then 1 else 0) && t.state == if watched then Reconnecting else Up
  {
    steps := BreakNoticed(p, ticket, watched);
    steps := AttemptSucceeds(p, ticket, steps);
  }

  /**
   The run that shows it happens: the new session breaks while the consumers are being replayed.  The
   application reads Connected, whether it watches the state or only polls it.
   */
  lemma BreakDuringReplayIsLost(p: ReconnectParams, ticket: bool, watched: bool) returns (steps: seq<Step>)
    ensures Legal(p, Start(ticket), steps)
    ensures var s := Exec(p, Start(ticket), steps);
            && s.phase.Parked? && s.live == {} && s.notices == [] && !s.shutdown && s.autoReconnect
            && s.state == Up && s.watchers == if watched then 1 else 0
  {
    var t;
    steps := ReconnectOnce(p, ticket, watched);
    steps, t := Then(p, Start(ticket), steps, ForwarderDies(1));
    steps, t := Then(p, Start(ticket), steps, ReplayDone);
    steps, t := Then(p, Start(ticket), steps, DrainOne);
    steps, t := Then(p, Start(ticket), steps, DrainDone);
  }

  // ---- What the state watch shows ----

  /** The last start or end of a reconnect chain that somebody watched was a start. */
  predicate ShowsReconnecting(p: ReconnectParams, s: System, steps: seq<Step>)
    requires Legal(p, s, steps)
    decreases |steps|
  {
    steps != [] &&
    var before, last := Exec(p, s, steps[..|steps| - 1]), steps[|steps| - 1];
    if last.TakeNotice? && before.watchers > 0 && before.autoReconnect then true
    else if last.ReplayDone? && before.watchers > 0 then false
    else ShowsReconnecting(p, s, steps[..|steps| - 1])
  }

  /** The last start or end of a reconnect chain was a start, watched or not. */
  predicate IsReconnecting(p: ReconnectParams, s: System, steps: seq<Step>)
    requires Legal(p, s, steps)
    decreases |steps|
  {
    steps != [] &&
    var last := steps[|steps| - 1];
    if last.TakeNotice? then true
    else if last.ReplayDone? then false
    else IsReconnecting(p, s, steps[..|steps| - 1])
  }

  /** An attempt was refused for good while somebody watched. */
  predicate SeenToFail(p: ReconnectParams, s: System, steps: seq<Step>)
    requires Legal(p, s, steps)
    decreases |steps|
  {
    steps != [] &&
    (SeenToFail(p, s, steps[..|steps| - 1])
     || (steps[|steps| - 1].ConnectTerminal? && Exec(p, s, steps[..|steps| - 1]).watchers > 0))
  }

  /** A break was noticed with automatic reconnection off while somebody watched. */
  predicate SeenToStop(p: ReconnectParams, s: System, steps: seq<Step>)
    requires Legal(p, s, steps)
    decreases |steps|
  {
    steps != [] &&
    var before := Exec(p, s, steps[..|steps| - 1]);
    SeenToStop(p, s, steps[..|steps| - 1])
    || (steps[|steps| - 1].TakeNotice? && before.watchers > 0 && !before.autoReconnect)
  }

  function StateOf(failed: bool, stopped: bool, reconnecting: bool): ConnectionState {
    if failed then Failed else if stopped then Disconnected else if reconnecting then Reconnecting else Up
  }

  lemma StepShowsState(p: ReconnectParams, s: System, step: Step, failed: bool, stopped: bool, reconnecting: bool)
    requires Inv(p, s) && Enabled(s, step) && s.state == StateOf(failed, stopped, reconnecting)
    ensures Apply(p, s, step).state
            == StateOf(failed || (step.ConnectTerminal? && s.watchers > 0),
                       stopped || (step.TakeNotice? && s.watchers > 0 && !s.autoReconnect),
                       if step.TakeNotice? && s.watchers > 0 && s.autoReconnect then true
                       else if step.ReplayDone? && s.watchers > 0 then false
                       else reconnecting)
  {
  }

  /**
   The state that `connection_state` reads is, in every run, what was last written while somebody watched:
   Failed and Disconnected exactly when that end was watched, Reconnecting exactly when the last watched
   start or end of a chain was a start, and Connected otherwise.
   */
  lemma {:induction false} StateIsWhatWasWatched(p: ReconnectParams, ticket: bool, steps: seq<Step>)
    requires Representable(p) && Legal(p, Start(ticket), steps)
    ensures Exec(p, Start(ticket), steps).state
            == StateOf(SeenToFail(p, Start(ticket), steps), SeenToStop(p, Start(ticket), steps),
                       ShowsReconnecting(p, Start(ticket), steps))
    decreases |steps|
  {
    if steps != [] {
      var init := steps[..|steps| - 1];
      StateIsWhatWasWatched(p, ticket, init);
      RunsKeepInv(p, ticket, init);
      StepShowsState(p, Exec(p, Start(ticket), init), steps[|steps| - 1], SeenToFail(p, Start(ticket), init),
                     SeenToStop(p, Start(ticket), init), ShowsReconnecting(p, Start(ticket), init));
    }
  }

  predicate Rebuilding(s: System) { InChain(s) || s.phase.Replaying? }

  lemma StepFollowsTheChain(p: ReconnectParams, s: System, step: Step)
    requires Enabled(s, step) && !Apply(p, s, step).phase.Exited?
    ensures !s.phase.Exited?
    ensures Rebuilding(Apply(p, s, step))
            <==> if step.TakeNotice? then true else if step.ReplayDone? then false else Rebuilding(s)
  {
  }

  lemma {:induction false} PhaseFollowsTheChain(p: ReconnectParams, ticket: bool, steps: seq<Step>)
    requires Representable(p) && Legal(p, Start(ticket), steps)
    requires !Exec(p, Start(ticket), steps).phase.Exited?
    ensures Rebuilding(Exec(p, Start(ticket), steps)) <==> IsReconnecting(p, Start(ticket), steps)
    decreases |steps|
  {
    if steps != [] {
      var init := steps[..|steps| - 1];
      StepFollowsTheChain(p, Exec(p, Start(ticket), init), steps[|steps| - 1]);
      PhaseFollowsTheChain(p, ticket, init);
    }
  }

  /** The state tells where a running supervisor is: Reconnecting in a chain and its replay, else Connected. */
  predicate StateIsRight(s: System) {
    s.state == if Rebuilding(s) then Reconnecting else Up
  }

  /** For a running supervisor it does iff the last watched start or end of a chain is of the last one's kind. */
  lemma StateIsRightIffShown(p: ReconnectParams, ticket: bool, steps: seq<Step>)
    requires Representable(p) && Legal(p, Start(ticket), steps)
    requires !Exec(p, Start(ticket), steps).phase.Exited?
    ensures StateIsRight(Exec(p, Start(ticket), steps))
            <==> (ShowsReconnecting(p, Start(ticket), steps) <==> IsReconnecting(p, Start(ticket), steps))
  {
    StateIsWhatWasWatched(p, ticket, steps);
    PhaseFollowsTheChain(p, ticket, steps);
    RunsKeepInv(p, ticket, steps);
  }

  /** An application that only polls reads Connected throughout, whatever happens. */
  lemma {:induction false} PollingSeesNothing(p: ReconnectParams, ticket: bool, steps: seq<Step>)
    requires Legal(p, Start(ticket), steps) && Watch !in steps
    ensures Exec(p, Start(ticket), steps).state == Up && Exec(p, Start(ticket), steps).watchers == 0
    decreases |steps|
  {
    if steps != [] {
      var init, last := steps[..|steps| - 1], steps[|steps| - 1];
      assert steps == init + [last];
      PollingSeesNothing(p, ticket, init);
      UnwatchedStepIsUnseen(p, Exec(p, Start(ticket), init), last);
    }
  }

  lemma UnwatchedStepIsUnseen(p: ReconnectParams, s: System, step: Step)
    requires Enabled(s, step) && s.watchers == 0 && step != Watch
    ensures Apply(p, s, step).state == s.state && Apply(p, s, step).watchers == 0
  {
  }

  lemma ChainUnwatched(p: ReconnectParams, ticket: bool) returns (steps: seq<Step>)
    ensures Legal(p, Start(ticket), steps)
    ensures var t := Exec(p, Start(ticket), steps);
            t.phase.Attempting? && t.session == 0 && t.live == {} && t.notices == [] && t.watchers == 0
            && t.state == Reconnecting && !t.shutdown
  {
    var t;
    steps := BreakNoticed(p, ticket, true);
    steps, t := Then(p, Start(ticket), steps, Unwatch);
  }

  lemma HealsUnwatched(p: ReconnectParams, ticket: bool) returns (steps: seq<Step>)
    ensures Legal(p, Start(ticket), steps)
    ensures var t := Exec(p, Start(ticket), steps);
            && t.phase.Replaying? && t.live == {1} && t.notices == []
            && t.watchers == 0 && t.state == Reconnecting && !t.shutdown
  {
    steps := ChainUnwatched(p, ticket);
    steps := AttemptSucceeds(p, ticket, steps);
  }

  /** A watcher that leaves during a chain leaves Reconnecting behind for a supervisor that has healed. */
  lemma HealedCanReadReconnecting(p: ReconnectParams, ticket: bool) returns (steps: seq<Step>)
    ensures Legal(p, Start(ticket), steps)
    ensures var s := Exec(p, Start(ticket), steps);
            s.phase.Parked? && s.live == {1} && s.state == Reconnecting && !s.shutdown
  {
    var t;
    steps := HealsUnwatched(p, ticket);
    steps, t := Then(p, Start(ticket), steps, ReplayDone);
    steps, t := Then(p, Start(ticket), steps, DrainDone);
  }

  /** Failed and Disconnected are never left, however the run goes on. */
  lemma {:induction false} TerminalStatesStay(p: ReconnectParams, s: System, more: seq<Step>)
    requires Representable(p) && Inv(p, s) && Legal(p, s, more)
    requires s.state == Failed || s.state == Disconnected
    ensures Inv(p, Exec(p, s, more)) && Exec(p, s, more).state == s.state
    decreases |more|
  {
    if more != [] {
      TerminalStatesStay(p, s, more[..|more| - 1]);
      StepKeepsInv(p, Exec(p, s, more[..|more| - 1]), more[|more| - 1]);
    }
  }

  lemma ExitedStepDoesNothing(p: ReconnectParams, s: System, step: Step)
    requires Enabled(s, step) && s.phase.Exited?
    ensures var t := Apply(p, s, step);
            && t.phase.Exited? && t.state == s.state
            && t.presented == s.presented && t.sleeps == s.sleeps && t.live <= s.live
  {
  }

  /** A supervisor that has ended, by shutdown or otherwise, connects no more and starts no forwarder. */
  lemma {:induction false} EndedForGood(p: ReconnectParams, s: System, more: seq<Step>)
    requires s.phase.Exited? && Legal(p, s, more)
    ensures var t := Exec(p, s, more);
            && t.phase.Exited? && t.state == s.state
            && t.presented == s.presented && t.sleeps == s.sleeps && t.live <= s.live
    decreases |more|
  {
    if more != [] {
      EndedForGood(p, s, more[..|more| - 1]);
      ExitedStepDoesNothing(p, Exec(p, s, more[..|more| - 1]), more[|more| - 1]);
    }
  }

  /** A shutdown ends the supervisor wherever it is. */
  lemma ShutdownEndsIt(p: ReconnectParams, s: System)
    ensures var t := Apply(p, s, Shutdown);
            t.shutdown && Enabled(t, SupervisorStops) && Apply(p, t, SupervisorStops).phase.Exited?
  {
  }

  /** In a chain: a first attempt carries, or has just presented, the ticket the server issued, and no other does. */
  predicate TicketOffered(s: System) {
    && (s.phase.Attempting? ==> s.phase.nonce == if s.phase.failures == 0 && s.ticket then Some(s.session) else None)
    && (s.phase.Attempting? && s.phase.failures == 0 ==> s.session !in s.presented)
    && (s.phase.Connecting? && s.phase.failures == 0 ==>
        (s.slot == Some(s.session) || s.session in s.presented <==> s.ticket))
    && (s.phase.Connecting? && s.phase.failures > 0 ==> s.slot == None)
    && (s.phase.Sleeping? ==> s.phase.failures > 0)
  }

  lemma StepOffersTicket(p: ReconnectParams, s: System, step: Step)
    requires Inv(p, s) && Enabled(s, step) && TicketOffered(s)
    ensures TicketOffered(Apply(p, s, step))
  {
  }

  /**
   Over every run: the first attempt after a break offers the session's resume ticket exactly when the
   server issued one, and no later attempt offers any.
   */
  lemma {:induction false} IssuedTicketIsOffered(p: ReconnectParams, ticket: bool, steps: seq<Step>)
    requires Representable(p) && Legal(p, Start(ticket), steps)
    ensures TicketOffered(Exec(p, Start(ticket), steps))
    decreases |steps|
  {
    if steps != [] {
      var init := steps[..|steps| - 1];
      IssuedTicketIsOffered(p, ticket, init);
      RunsKeepInv(p, ticket, init);
      StepOffersTicket(p, Exec(p, Start(ticket), init), steps[|steps| - 1]);
    }
  }

  /** A noticed break starts a chain at once, with the first delay, unless reconnection is off; then it ends. */
  lemma BreakStartsAChain(p: ReconnectParams, ticket: bool, steps: seq<Step>)
    requires Representable(p) && Legal(p, Start(ticket), steps)
    requires Enabled(Exec(p, Start(ticket), steps), TakeNotice)
    ensures var s := Exec(p, Start(ticket), steps);
            var t := Apply(p, s, TakeNotice);
            && (s.autoReconnect ==> t.phase == Attempting(p.base, if s.ticket then Some(s.session) else None, 0))
            && (!s.autoReconnect ==> t.phase.Exited?)
            && t.live == {} && t.notices == []
  {
    RunsKeepInv(p, ticket, steps);
  }

  /** A successful attempt starts one forwarder, of a new session, and its chain ends in a replay. */
  lemma SuccessStartsOneForwarder(p: ReconnectParams, ticket: bool, steps: seq<Step>, issued: bool)
    requires Representable(p) && Legal(p, Start(ticket), steps)
    requires Enabled(Exec(p, Start(ticket), steps), ConnectOk(issued))
    ensures var s := Exec(p, Start(ticket), steps);
            var t := Apply(p, s, ConnectOk(issued));
            && t.phase.Replaying? && t.session == s.session + 1 && t.live == {t.session} && t.ticket == issued
            && t.session !in t.presented
  {
    RunsKeepInv(p, ticket, steps);
  }

  /** Each session's resume ticket is presented in at most one connect attempt over the whole run. */
  lemma TicketsAreOneShot(p: ReconnectParams, ticket: bool, steps: seq<Step>)
    requires Representable(p) && Legal(p, Start(ticket), steps)
    ensures var presented := Exec(p, Start(ticket), steps).presented;
            forall i, j :: 0 <= i < j < |presented| ==> presented[i] != presented[j]
  {
    RunsKeepInv(p, ticket, steps);
  }

  /** The sleep after the k-th failed attempt of a chain is base, doubled k - 1 times, capped. */
  lemma SleepsAreCappedDoublings(p: ReconnectParams, ticket: bool, steps: seq<Step>, i: nat)
    requires Representable(p) && p.base <= p.max && Legal(p, Start(ticket), steps)
    requires i < |Exec(p, Start(ticket), steps).sleeps|
    ensures var (k, ms) := Exec(p, Start(ticket), steps).sleeps[i];
            k >= 1 && ms == Min(p.base * Pow2(k - 1), p.max)
  {
    RunsKeepInv(p, ticket, steps);
    var (k, ms) := Exec(p, Start(ticket), steps).sleeps[i];
    assert ms == Backoff(p, k - 1);
    CappedBackoff(p, k - 1);
  }

  /** With the built-in parameters the sleeps are 0.2, 0.4, ... seconds and never more than 5. */
  lemma DefaultSleeps(ticket: bool, steps: seq<Step>, i: nat)
    requires Legal(DEFAULT_PARAMS, Start(ticket), steps) && i < |Exec(DEFAULT_PARAMS, Start(ticket), steps).sleeps|
    ensures var (k, ms) := Exec(DEFAULT_PARAMS, Start(ticket), steps).sleeps[i];
            k >= 1 && ms == Min(200 * Pow2(k - 1), 5000)
  {
    SleepsAreCappedDoublings(DEFAULT_PARAMS, ticket, steps, i);
  }
}
