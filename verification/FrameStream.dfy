/**
 The latest-slot frame stream under any number of producers and cloned consumers.

 A step is one atomic action of `deliver`, `shutdown` or `recv`: setting the slot, notifying, arming
 the waiter, taking the slot, reading the flag, parking.  Deliveries are numbered in the order in
 which they set the slot; the numbers are history only.
 */
module FrameStream {
  import opened Wrappers

  /** Where one `recv` call is.  `woken` says whether a notification reached its armed waiter. */
  datatype Stage =
    | Idle
    | Armed(woken: bool)
    | SlotSeen(woken: bool)
    | Parked(woken: bool)
    | Returned(frame: Option<nat>)

  /**
   `slot` holds the number of the frame in it.  `unannounced` are the deliveries whose writer has set
   the slot and not yet notified; `closers` counts the shutdowns that have set the flag and not yet
   notified.  `taken` logs (frame number, deliveries so far) for each take.
   */
  datatype System = System(
    slot: Option<nat>,
    closed: bool,
    delivered: nat,
    unannounced: set<nat>,
    closers: nat,
    consumers: map<nat, Stage>,
    taken: seq<(nat, nat)>)

  datatype Step =
    | SetSlot
    | AnnounceFrame(n: nat)
    | SetClosed
    | AnnounceClose
    | Subscribe(c: nat)
    | Arm(c: nat)
    | TakeOrMiss(c: nat)
    | CheckClosed(c: nat)
    | Wake(c: nat)
    | CallAgain(c: nat)

  predicate At(s: System, c: nat) { c in s.consumers }

  predicate Enabled(s: System, step: Step) {
    match step
    case SetSlot => true
    case AnnounceFrame(n) => n in s.unannounced
    case SetClosed => true
    case AnnounceClose => s.closers > 0
    case Subscribe(c) => c !in s.consumers
    case Arm(c) => At(s, c) && s.consumers[c].Idle?
    case TakeOrMiss(c) => At(s, c) && s.consumers[c].Armed?
    case CheckClosed(c) => At(s, c) && s.consumers[c].SlotSeen?
    case Wake(c) => At(s, c) && s.consumers[c].Parked? && s.consumers[c].woken
    case CallAgain(c) => At(s, c) && s.consumers[c].Returned?
  }

  /** `notify_waiters` wakes every waiter that is armed at that moment and leaves no permit behind. */
  function Notify(st: Stage): Stage {
    match st
    case Armed(_) => Armed(true)
    case SlotSeen(_) => SlotSeen(true)
    case Parked(_) => Parked(true)
    case _ => st
  }

  function NotifyAll(consumers: map<nat, Stage>): map<nat, Stage> {
    map c | c in consumers :: Notify(consumers[c])
  }

  function Apply(s: System, step: Step): System
    requires Enabled(s, step)
  {
    match step
    case SetSlot =>
      s.(slot := Some(s.delivered), delivered := s.delivered + 1, unannounced := s.unannounced + {s.delivered})
    case AnnounceFrame(n) => s.(unannounced := s.unannounced - {n}, consumers := NotifyAll(s.consumers))
    case SetClosed => s.(closed := true, closers := s.closers + 1)
    case AnnounceClose => s.(closers := s.closers - 1, consumers := NotifyAll(s.consumers))
    case Subscribe(c) => s.(consumers := s.consumers[c := Idle])
    case Arm(c) => s.(consumers := s.consumers[c := Armed(false)])
    case TakeOrMiss(c) =>
      if s.slot.Some? then
        s.(slot := None, taken := s.taken + [(s.slot.value, s.delivered)],
           consumers := s.consumers[c := Returned(s.slot)])
      else s.(consumers := s.consumers[c := SlotSeen(s.consumers[c].woken)])
    case CheckClosed(c) =>
      s.(consumers := s.consumers[c := if s.closed then Returned(None) else Parked(s.consumers[c].woken)])
    case Wake(c) => s.(consumers := s.consumers[c := Idle])
    case CallAgain(c) => s.(consumers := s.consumers[c := Idle])
  }

  const START := System(None, false, 0, {}, 0, map[], [])

  predicate Legal(s: System, steps: seq<Step>)
    decreases |steps|, 0
  {
    steps == [] ||
    (Legal(s, steps[..|steps| - 1]) && Enabled(Exec(s, steps[..|steps| - 1]), steps[|steps| - 1]))
  }

  function Exec(s: System, steps: seq<Step>): System
    requires Legal(s, steps)
    decreases |steps|, 1
  {
    if steps == [] then s else Apply(Exec(s, steps[..|steps| - 1]), steps[|steps| - 1])
  }

  // ---- Invariant ----

  /** A frame in the slot is unseen only while the very writer that put it there has yet to notify. */
  predicate FrameHidden(s: System) { s.slot.None? || s.slot.value in s.unannounced }

  predicate CloseHidden(s: System) { !s.closed || s.closers > 0 }

  /** What a waiter that was not woken may rely on, by how far its `recv` has come. */
  predicate StageOk(s: System, st: Stage) {
    match st
    case SlotSeen(woken) => woken || FrameHidden(s)
    case Parked(woken) => woken || (FrameHidden(s) && CloseHidden(s))
    case _ => true
  }

  /** Frames are taken in delivery order without repetition, each while it was the latest one. */
  predicate TakenOk(s: System) {
    && (forall i :: 0 <= i < |s.taken| ==> s.taken[i].0 + 1 == s.taken[i].1 <= s.delivered)
    && (forall i, j :: 0 <= i < j < |s.taken| ==> s.taken[i].0 < s.taken[j].0)
    && (s.slot.Some? ==> s.slot.value + 1 == s.delivered)
    && (s.slot.Some? ==> forall i :: 0 <= i < |s.taken| ==> s.taken[i].0 < s.slot.value)
  }

  ghost predicate Inv(s: System) {
    && (forall c :: c in s.consumers ==> StageOk(s, s.consumers[c]))
    && (forall n :: n in s.unannounced ==> n < s.delivered)
    && TakenOk(s)
  }

  lemma StepKeepsInv(s: System, step: Step)
    requires Inv(s) && Enabled(s, step)
    ensures Inv(Apply(s, step))
  {
  }

  lemma {:induction false} RunsKeepInv(steps: seq<Step>)
    requires Legal(START, steps)
    ensures Inv(Exec(START, steps))
    decreases |steps|
  {
    if steps != [] {
      RunsKeepInv(steps[..|steps| - 1]);
      StepKeepsInv(Exec(START, steps[..|steps| - 1]), steps[|steps| - 1]);
    }
  }

  // ---- Results ----

  /**
   No wakeup is lost: while a `recv` is parked without a notification, any frame in the slot is that
   of a writer about to notify, and a set shutdown flag has a closer about to notify.
   */
  lemma NoLostWakeup(steps: seq<Step>, c: nat)
    requires Legal(START, steps)
    requires var s := Exec(START, steps); c in s.consumers && s.consumers[c] == Parked(false)
    ensures var s := Exec(START, steps);
            && (s.slot.Some? ==> s.slot.value in s.unannounced)
            && (s.closed ==> s.closers > 0)
  {
    RunsKeepInv(steps);
  }

  /** The notification that such a writer owes does wake the parked call, which then runs again. */
  lemma OwedNotificationWakes(s: System, c: nat, n: nat)
    requires c in s.consumers && s.consumers[c] == Parked(false) && n in s.unannounced
    ensures Enabled(s, AnnounceFrame(n)) && Enabled(Apply(s, AnnounceFrame(n)), Wake(c))
  {
  }

  /** With every notification delivered, nothing visible leaves a call parked. */
  lemma QuietMeansNothingToSee(steps: seq<Step>)
    requires Legal(START, steps)
    requires var s := Exec(START, steps); s.unannounced == {} && s.closers == 0
    ensures var s := Exec(START, steps);
            (s.slot.Some? || s.closed) ==>
            forall c :: c in s.consumers && s.consumers[c].Parked? ==> s.consumers[c].woken
  {
    RunsKeepInv(steps);
    var s := Exec(START, steps);
    forall c | c in s.consumers && s.consumers[c].Parked? && (s.slot.Some? || s.closed)
      ensures s.consumers[c].woken
    {
      assert StageOk(s, s.consumers[c]);
    }
  }

  /** Across all consumers each frame is taken at most once, in delivery order, and was the latest then. */
  lemma FramesAreTakenOnceInOrder(steps: seq<Step>)
    requires Legal(START, steps)
    ensures var taken := Exec(START, steps).taken;
            && (forall i, j :: 0 <= i < j < |taken| ==> taken[i].0 < taken[j].0)
            && (forall i :: 0 <= i < |taken| ==> taken[i].0 + 1 == taken[i].1)
  {
    RunsKeepInv(steps);
  }

  ghost predicate NoneMeansClosed(s: System) {
    !s.closed ==> forall c :: c in s.consumers && s.consumers[c].Returned? ==> s.consumers[c].frame.Some?
  }

  lemma StepKeepsNoneMeansClosed(s: System, step: Step)
    requires NoneMeansClosed(s) && Enabled(s, step)
    ensures NoneMeansClosed(Apply(s, step))
  {
  }

  /** A call returns no frame only after a shutdown. */
  lemma {:induction false} NoneOnlyAfterShutdown(steps: seq<Step>)
    requires Legal(START, steps)
    ensures NoneMeansClosed(Exec(START, steps))
    decreases |steps|
  {
    if steps != [] {
      NoneOnlyAfterShutdown(steps[..|steps| - 1]);
      StepKeepsNoneMeansClosed(Exec(START, steps[..|steps| - 1]), steps[|steps| - 1]);
    }
  }

  // ---- What a call returns ----

  /** The frame that a call has returned. */
  predicate Holds(s: System, c: nat, n: nat) {
    c in s.consumers && s.consumers[c] == Returned(Some(n))
  }

  ghost predicate HoldsTaken(s: System) {
    && (forall c: nat, n: nat :: Holds(s, c, n) ==> exists i :: 0 <= i < |s.taken| && s.taken[i].0 == n)
    && (forall c: nat, d: nat, n: nat :: Holds(s, c, n) && Holds(s, d, n) ==> c == d)
  }

  /** The call that takes a frame returns that very frame, and what it takes was in the slot. */
  lemma TakerReturnsWhatItTook(s: System, c: nat)
    requires Enabled(s, TakeOrMiss(c))
    ensures var t := Apply(s, TakeOrMiss(c));
            && (s.slot.Some? ==> t.taken == s.taken + [(s.slot.value, s.delivered)] && Holds(t, c, s.slot.value))
            && (s.slot.Some? ==> t.slot == None)
            && (s.slot.None? ==> t.taken == s.taken && t.slot == None && t.consumers[c].SlotSeen?)
            && (forall d :: d in s.consumers && d != c ==> d in t.consumers && t.consumers[d] == s.consumers[d])
  {
  }

  lemma StepMovesHolder(s: System, step: Step, c: nat, n: nat)
    requires Enabled(s, step) && Holds(Apply(s, step), c, n)
    ensures Holds(s, c, n) || (step == TakeOrMiss(c) && s.slot == Some(n))
  {
  }

  lemma StepKeepsHolders(s: System, step: Step)
    requires Inv(s) && Enabled(s, step) && HoldsTaken(s)
    ensures HoldsTaken(Apply(s, step))
  {
    var t := Apply(s, step);
    forall c: nat, n: nat | Holds(t, c, n) ensures exists i :: 0 <= i < |t.taken| && t.taken[i].0 == n {
      StepMovesHolder(s, step, c, n);
      if Holds(s, c, n) {
        var i :| 0 <= i < |s.taken| && s.taken[i].0 == n;
        assert t.taken[i].0 == n;
      } else {
        assert t.taken[|s.taken|].0 == n;
      }
    }
    forall c: nat, d: nat, n: nat | Holds(t, c, n) && Holds(t, d, n) ensures c == d {
      StepMovesHolder(s, step, c, n);
      StepMovesHolder(s, step, d, n);
      if c != d && Holds(s, c, n) && !Holds(s, d, n) {
        FreshFrame(s, c, n);
      } else if c != d && Holds(s, d, n) && !Holds(s, c, n) {
        FreshFrame(s, d, n);
      }
    }
  }

  lemma FreshFrame(s: System, c: nat, n: nat)
    requires Inv(s) && HoldsTaken(s) && s.slot == Some(n)
    ensures !Holds(s, c, n)
  {
  }

  /**
   In every run, a frame that a call returned was taken from the slot, so it was delivered, and no two
   calls return the same one.
   */
  lemma {:induction false} ReturnedFramesWereTaken(steps: seq<Step>)
    requires Legal(START, steps)
    ensures HoldsTaken(Exec(START, steps))
    ensures var s := Exec(START, steps); forall c: nat, n: nat :: Holds(s, c, n) ==> n < s.delivered
    decreases |steps|
  {
    if steps != [] {
      var init := steps[..|steps| - 1];
      ReturnedFramesWereTaken(init);
      RunsKeepInv(init);
      StepKeepsHolders(Exec(START, init), steps[|steps| - 1]);
    }
    RunsKeepInv(steps);
  }

  /** An undisturbed call: the frame if there is one, else nothing if the stream is closed, else it waits. */
  lemma UndisturbedCall(s: System, c: nat)
    requires Enabled(s, Arm(c))
    ensures var armed := Apply(s, Arm(c));
            Enabled(armed, TakeOrMiss(c)) &&
            var looked := Apply(armed, TakeOrMiss(c));
            && (s.slot.Some? ==> looked.consumers[c] == Returned(s.slot))
            && (s.slot.None? ==>
                Enabled(looked, CheckClosed(c)) &&
                Apply(looked, CheckClosed(c)).consumers[c] == if s.closed then Returned(None) else Parked(false))
  {
  }

  /** A delivery replaces whatever was in the slot. */
  lemma DeliveryReplaces(s: System)
    ensures Apply(s, SetSlot).slot == Some(s.delivered) && Apply(s, SetSlot).delivered == s.delivered + 1
    ensures Enabled(Apply(s, SetSlot), AnnounceFrame(s.delivered))
  {
  }
}
