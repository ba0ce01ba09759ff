/**
 The emergency-stop actuator: a counter, a one-shot latch and an append-only audit.

 The class is the actuator used by one caller at a time.  `System` is the same actuator under any
 number of concurrent triggers, each of which adds to the counter, swaps the latch and appends its
 audit line in three separate atomic actions.  Counters are unbounded.
 */
module Emergency {
  import opened Wrappers

  datatype Source = Dc | Local

  datatype Line = Line(source: Source, seqNo: Option<nat>, latched: bool, count: nat)

  datatype Trigger = Trigger(latched: bool, count: nat, audited: bool)

  class StubEmergencyActuator {
    var latch: bool
    var count: nat
    var audit: seq<Line>

    /** With one caller at a time the latch is closed exactly when a trigger has been counted. */
    predicate Valid()
      reads this
    {
      latch <==> count > 0
    }

    constructor ()
      ensures Valid() && count == 0 && audit == []
    {
      latch, count, audit := false, 0, [];
    }

    /** `writable` says whether the audit append succeeds; the stop happens either way. */
    method Fire(source: Source, seqNo: Option<nat>, writable: bool) returns (t: Trigger)
      requires Valid()
      modifies this
      ensures Valid() && latch && count == old(count) + 1
      ensures t == Trigger(old(count) == 0, count, writable)
      ensures audit == old(audit) + (if writable then [Line(source, seqNo, t.latched, t.count)] else [])
    {
      count := count + 1;
      var was := latch;
      latch := true;
      t := Trigger(!was, count, writable);
      if writable {
        audit := audit + [Line(source, seqNo, t.latched, t.count)];
      }
    }
  }

  // ---- Concurrent triggers ----

  datatype Stage = Counted(n: nat) | Swapped(n: nat, latched: bool) | Done(n: nat, latched: bool, audited: bool)

  /** `order` lists the triggers in the order in which they were counted. */
  datatype System = System(count: nat, latch: bool, triggers: map<nat, Stage>, order: seq<nat>, audit: seq<(nat, Line)>)

  datatype Step =
    | CountIn(id: nat)
    | SwapLatch(id: nat)
    | Audit(id: nat, source: Source, seqNo: Option<nat>, writable: bool)

  predicate Enabled(s: System, step: Step) {
    match step
    case CountIn(id) => id !in s.triggers
    case SwapLatch(id) => id in s.triggers && s.triggers[id].Counted?
    case Audit(id, _, _, _) => id in s.triggers && s.triggers[id].Swapped?
  }

  function Apply(s: System, step: Step): System
    requires Enabled(s, step)
  {
    match step
    case CountIn(id) =>
      s.(count := s.count + 1, triggers := s.triggers[id := Counted(s.count + 1)], order := s.order + [id])
    case SwapLatch(id) =>
      s.(latch := true, triggers := s.triggers[id := Swapped(s.triggers[id].n, !s.latch)])
    case Audit(id, source, seqNo, writable) =>
      var t := s.triggers[id];
      s.(triggers := s.triggers[id := Done(t.n, t.latched, writable)],
         audit := if writable then s.audit + [(id, Line(source, seqNo, t.latched, t.n))] else s.audit)
  }

  const START := System(0, false, map[], [], [])

  predicate Legal(s: System, steps: seq<Step>)
    decreases |steps|, 0
  {
    steps == [] ||
    (Legal(s, steps[..|steps| - 1]) && Enabled(Exec(s, steps[..|steps| - 1]), steps[|steps| - 1]))
  }

  function Exec(s: System, steps: seq<Step>): System
    requires Legal(s, steps)
    decreases |steps|, 1
  {
    if steps == [] then s else Apply(Exec(s, steps[..|steps| - 1]), steps[|steps| - 1])
  }

  predicate Armed(st: Stage) { !st.Counted? && st.latched }

  /** The counts handed out are 1, 2, ... in order, one per trigger. */
  predicate CountsOk(s: System) {
    && |s.order| == s.count
    && (forall i :: 0 <= i < |s.order| ==> s.order[i] in s.triggers && s.triggers[s.order[i]].n == i + 1)
    && (forall id :: id in s.triggers ==> CountedIn(s.order, id, s.triggers[id].n))
  }

  predicate CountedIn(order: seq<nat>, id: nat, n: nat) {
    1 <= n <= |order| && order[n - 1] == id
  }

  /** A closed latch has exactly one trigger that closed it; an open one has none that swapped it. */
  ghost predicate LatchOk(s: System) {
    && (s.latch ==> exists id :: id in s.triggers && Armed(s.triggers[id]))
    && (!s.latch ==> forall id :: id in s.triggers ==> s.triggers[id].Counted?)
    && (forall a, b :: a in s.triggers && b in s.triggers && Armed(s.triggers[a]) && Armed(s.triggers[b]) ==> a == b)
  }

  /** One line for each finished trigger whose append succeeded, with that trigger's outcome. */
  ghost predicate AuditOk(s: System) {
    && (forall i :: 0 <= i < |s.audit| ==>
         var (id, line) := s.audit[i];
         id in s.triggers && s.triggers[id] == Done(line.count, line.latched, true))
    && (forall i, j :: 0 <= i < j < |s.audit| ==> s.audit[i].0 != s.audit[j].0)
    && (forall id :: id in s.triggers && s.triggers[id].Done? && s.triggers[id].audited ==>
         exists i :: 0 <= i < |s.audit| && s.audit[i].0 == id)
  }

  ghost predicate Inv(s: System) { CountsOk(s) && LatchOk(s) && AuditOk(s) }

  lemma StepKeepsLatch(s: System, step: Step)
    requires LatchOk(s) && Enabled(s, step)
    ensures LatchOk(Apply(s, step)) && (s.latch ==> Apply(s, step).latch)
  {
    var t := Apply(s, step);
    if s.latch {
      var w :| w in s.triggers && Armed(s.triggers[w]);
      assert w in t.triggers && Armed(t.triggers[w]);
    } else if step.SwapLatch? {
      assert Armed(t.triggers[step.id]);
    }
  }

  lemma StepKeepsAudit(s: System, step: Step)
    requires AuditOk(s) && Enabled(s, step)
    ensures AuditOk(Apply(s, step))
  {
    var t := Apply(s, step);
    forall x | x in t.triggers && t.triggers[x].Done? && t.triggers[x].audited
      ensures exists i :: 0 <= i < |t.audit| && t.audit[i].0 == x
    {
      if step.Audit? && x == step.id {
        assert t.audit[|s.audit|].0 == x;
      } else {
        var i :| 0 <= i < |s.audit| && s.audit[i].0 == x;
        assert t.audit[i].0 == x;
      }
    }
  }

  lemma StepKeepsInv(s: System, step: Step)
    requires Inv(s) && Enabled(s, step)
    ensures Inv(Apply(s, step)) && (s.latch ==> Apply(s, step).latch)
  {
    StepKeepsLatch(s, step);
    StepKeepsAudit(s, step);
    StepKeepsCounts(s, step);
  }

  lemma StepKeepsCounts(s: System, step: Step)
    requires CountsOk(s) && Enabled(s, step)
    ensures CountsOk(Apply(s, step))
  {
    if step.CountIn? {
      CountInKeepsCounts(s, step.id);
    } else {
      RestageKeepsCounts(s, step.id, Apply(s, step).triggers[step.id]);
    }
  }

  lemma CountInKeepsCounts(s: System, id: nat)
    requires CountsOk(s) && id !in s.triggers
    ensures CountsOk(Apply(s, CountIn(id)))
  {
    var t := Apply(s, CountIn(id));
    assert forall i :: 0 <= i < |s.order| ==> t.order[i] == s.order[i];
  }

  /** A trigger that moves on keeps its count. */
  lemma RestageKeepsCounts(s: System, id: nat, st: Stage)
    requires CountsOk(s) && id in s.triggers && st.n == s.triggers[id].n
    ensures CountsOk(s.(triggers := s.triggers[id := st]))
  {
  }

  /**
   In every interleaving of any number of triggers: the n counts handed out are exactly 1 to n, the
   latch is closed by exactly one trigger once any has passed the swap, and every audited trigger has
   exactly one line that reports its outcome.
   */
  lemma {:induction false} RunsKeepInv(steps: seq<Step>)
    requires Legal(START, steps)
    ensures Inv(Exec(START, steps))
    ensures var s := Exec(START, steps);
            (exists id :: id in s.triggers && !s.triggers[id].Counted?) ==>
            exists w :: w in s.triggers && Armed(s.triggers[w])
                        && forall o :: o in s.triggers && Armed(s.triggers[o]) ==> o == w
    decreases |steps|
  {
    if steps != [] {
      RunsKeepInv(steps[..|steps| - 1]);
      StepKeepsInv(Exec(START, steps[..|steps| - 1]), steps[|steps| - 1]);
    }
    var s := Exec(START, steps);
    if s.latch {
      var w :| w in s.triggers && Armed(s.triggers[w]);
    }
  }

  /** The latch never reopens. */
  lemma {:induction false} LatchStaysClosed(s: System, more: seq<Step>)
    requires Inv(s) && s.latch && Legal(s, more)
    ensures Inv(Exec(s, more)) && Exec(s, more).latch
    decreases |more|
  {
    if more != [] {
      LatchStaysClosed(s, more[..|more| - 1]);
      StepKeepsInv(Exec(s, more[..|more| - 1]), more[|more| - 1]);
    }
  }

  /** Under concurrency the trigger that closes the latch need not be the first one counted. */
  lemma SecondCountedCanLatch(a: nat, b: nat)
    requires a != b
    ensures exists steps :: Legal(START, steps)
              && Exec(START, steps).triggers == map[a := Swapped(1, false), b := Swapped(2, true)]
  {
    var steps := BothCountIn(a, b);
    steps := Then(steps, SwapLatch(b));
    assert Exec(START, steps).triggers == map[a := Counted(1), b := Swapped(2, true)];
    steps := Then(steps, SwapLatch(a));
    assert Exec(START, steps).triggers == map[a := Swapped(1, false), b := Swapped(2, true)];
  }

  lemma BothCountIn(a: nat, b: nat) returns (steps: seq<Step>)
    requires a != b
    ensures Legal(START, steps) && !Exec(START, steps).latch
    ensures Exec(START, steps).triggers == map[a := Counted(1), b := Counted(2)]
  {
    steps := Then([], CountIn(a));
    steps := Then(steps, CountIn(b));
    assert Exec(START, steps).triggers == map[a := Counted(1), b := Counted(2)];
  }

  lemma Then(steps: seq<Step>, step: Step) returns (more: seq<Step>)
    requires Legal(START, steps) && Enabled(Exec(START, steps), step)
    ensures Legal(START, more) && Exec(START, more) == Apply(Exec(START, steps), step)
  {
    more := steps + [step];
    assert more[..|more| - 1] == steps;
  }

  /** An audit line names its trigger's source and sequence number beside its outcome; a failed append adds none. */
  lemma AuditSaysWhoAndWhat(s: System, id: nat, source: Source, seqNo: Option<nat>, writable: bool)
    requires Enabled(s, Audit(id, source, seqNo, writable))
    ensures var t := Apply(s, Audit(id, source, seqNo, writable));
            && t.latch == s.latch && t.count == s.count && t.order == s.order
            && t.triggers[id] == Done(s.triggers[id].n, s.triggers[id].latched, writable)
            && (!writable ==> t.audit == s.audit)
            && (writable ==> |t.audit| == |s.audit| + 1 && s.audit <= t.audit
                             && t.audit[|s.audit|].0 == id
                             && t.audit[|s.audit|].1.source == source && t.audit[|s.audit|].1.seqNo == seqNo)
  {
  }
}
