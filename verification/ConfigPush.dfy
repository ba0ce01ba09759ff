/**
 Cloud configuration pushes on the vehicle: version gate, validation, backup, replacement of host.yaml,
 oxfile generation, and the agent that applies pushes and survives restarts.

 The configuration directory is a map from file names to contents; writes succeed.  The verdict of
 `validate`, the oxfile that would be written (`None` when its generation is refused, for instance
 because a configured key file is missing) and the verdict of the config core are inputs.
 */
module ConfigPush {
  import Decimal
  import opened Wrappers

  type Version = v: nat | v <= Decimal.U64_MAX

  const HOST: string := "host.yaml"
  const HOST_TMP: string := "host.toml.tmp"
  const BAK_PREFIX: string := "host.yaml.bak-"

  function BakName(v: nat): string { BAK_PREFIX + Decimal.Print(v) }

  /** The version a file name stands for, if it is the name of a backup. */
  function BackupVersion(name: string): Option<nat> {
    if BAK_PREFIX <= name then Decimal.ParseU64(name[|BAK_PREFIX|..]) else None
  }

  lemma BackupNames(v: Version)
    ensures BackupVersion(BakName(v)) == Some(v)
    ensures BackupVersion(HOST) == None && BackupVersion(HOST_TMP) == None
  {
    assert BakName(v)[|BAK_PREFIX|..] == Decimal.Print(v);
    Decimal.ParsePrint(v);
    assert |HOST| < |BAK_PREFIX| && |HOST_TMP| < |BAK_PREFIX|;
  }

  /** `v` is the largest version among the backups, or 0 when there is none. */
  ghost predicate IsRecovered(etc: map<string, string>, v: nat) {
    && (forall name :: name in etc && BackupVersion(name).Some? ==> BackupVersion(name).value <= v)
    && (v == 0 || exists name :: name in etc && BackupVersion(name) == Some(v))
  }

  lemma RecoveredIsUnique(etc: map<string, string>, v: nat, w: nat)
    requires IsRecovered(etc, v) && IsRecovered(etc, w)
    ensures v == w
  {
  }

  // ---- The directory ----

  datatype Dir = Dir(etc: map<string, string>, oxfile: Option<string>)

  datatype Verdict = Applied | Stale | Invalid | NoHost | OxfileRefused

  /** What a push does to the files, and its verdict. */
  function Handle(d: Dir, current: nat, config: string, version: nat, valid: bool, oxfile: Option<string>)
    : (Dir, Verdict)
  {
    if version <= current then (d, Stale)
    else if !valid then (d, Invalid)
    else if HOST !in d.etc then (d, NoHost)
    else
      var saved := d.etc[BakName(version) := d.etc[HOST]];
      var written := saved[HOST := config] - {HOST_TMP};
      if oxfile.None? then (d.(etc := written), OxfileRefused) else (Dir(written, oxfile), Applied)
  }

  class HostDir {
    var etc: map<string, string>
    var oxfile: Option<string>

    ghost function View(): Dir
      reads this
    {
      Dir(etc, oxfile)
    }

    constructor (etc: map<string, string>)
      ensures View() == Dir(etc, None)
    {
      this.etc, oxfile := etc, None;
    }

    method BackupHostConfig(version: nat) returns (ok: bool)
      modifies this
      ensures ok <==> HOST in old(etc)
      ensures View() == if ok then Dir(old(etc)[BakName(version) := old(etc)[HOST]], old(oxfile)) else old(View())
    {
      ok := HOST in etc;
      if ok {
        etc := etc[BakName(version) := etc[HOST]];
      }
    }

    /** Write a temporary file, then rename it over the target. */
    method AtomicWriteHost(content: string)
      modifies this
      ensures View() == Dir(old(etc)[HOST := content] - {HOST_TMP}, old(oxfile))
    {
      etc := etc[HOST_TMP := content];
      etc := etc[HOST := etc[HOST_TMP]] - {HOST_TMP};
    }

    method HandleConfigPush(current: nat, config: string, version: nat, valid: bool, newOxfile: Option<string>)
      returns (verdict: Verdict)
      modifies this
      ensures (View(), verdict) == Handle(old(View()), current, config, version, valid, newOxfile)
    {
      if version <= current {
        return Stale;
      }
      if !valid {
        return Invalid;
      }
      var ok := BackupHostConfig(version);
      if !ok {
        return NoHost;
      }
      AtomicWriteHost(config);
      if newOxfile.None? {
        return OxfileRefused;
      }
      oxfile := newOxfile;
      verdict := Applied;
    }

    method RecoverConfigVersion() returns (v: nat)
      ensures IsRecovered(etc, v)
    {
      v := 0;
      var left := etc.Keys;
      while left != {}
        invariant left <= etc.Keys
        invariant forall name :: name in etc.Keys - left && BackupVersion(name).Some? ==> BackupVersion(name).value <= v
        invariant v == 0 || exists name :: name in etc && BackupVersion(name) == Some(v)
        decreases |left|
      {
        var name :| name in left;
        left := left - {name};
        var version := BackupVersion(name);
        if version.Some? && version.value > v {
          v := version.value;
        }
      }
    }
  }

  // ---- The agent over pushes, edits and restarts ----

  /** A push that went live: its version, the host.yaml it replaced, and its content. */
  datatype Landed = Landed(version: nat, before: string, config: string)

  datatype Agent = Agent(dir: Dir, current: nat, landed: seq<Landed>)

  datatype Step =
    | Push(config: string, version: Version, valid: bool, oxfile: Option<string>, coreOk: bool)
    | EditHost(content: string)
    | Restart(recovered: nat)

  ghost predicate Enabled(a: Agent, step: Step) {
    step.Restart? ==> IsRecovered(a.dir.etc, step.recovered)
  }

  /** The remembered version advances only when the config core put the push into effect. */
  function Apply(a: Agent, step: Step): Agent {
    match step
    case Push(config, version, valid, oxfile, coreOk) =>
      var (dir, verdict) := Handle(a.dir, a.current, config, version, valid, oxfile);
      if verdict.Applied? && coreOk
      then Agent(dir, version, a.landed + [Landed(version, if HOST in a.dir.etc then a.dir.etc[HOST] else "", config)])
      else a.(dir := dir)
    case EditHost(content) => a.(dir := a.dir.(etc := a.dir.etc[HOST := content]))
    case Restart(recovered) => a.(current := recovered)
  }

  /** The version in memory is the one a restart would recover. */
  ghost predicate Synced(a: Agent) { IsRecovered(a.dir.etc, a.current) }

  /** A push that got as far as the backup and the new host.yaml, and did not go live. */
  predicate HalfApplied(a: Agent, step: Step) {
    step.Push? && a.current < step.version && step.valid && HOST in a.dir.etc && !(step.oxfile.Some? && step.coreOk)
  }

  lemma WrittenRecovers(etc: map<string, string>, current: nat, version: Version, config: string)
    requires IsRecovered(etc, current) && current < version && HOST in etc
    ensures var written := etc[BakName(version) := etc[HOST]][HOST := config] - {HOST_TMP};
            IsRecovered(written, version) && !IsRecovered(written, current)
  {
    BackupNames(version);
    var written := etc[BakName(version) := etc[HOST]][HOST := config] - {HOST_TMP};
    assert BakName(version) in written;
  }

  /** Memory and disk stay in step through a step if and only if it is not a half-applied push. */
  lemma SyncIsLostExactlyByHalfAppliedPushes(a: Agent, step: Step)
    requires Synced(a) && Enabled(a, step)
    ensures Synced(Apply(a, step)) <==> !HalfApplied(a, step)
  {
    match step {
      case Push(config, version, valid, oxfile, coreOk) =>
        if a.current < version && valid && HOST in a.dir.etc {
          WrittenRecovers(a.dir.etc, a.current, version, config);
        }
      case EditHost(content) =>
        BackupNames(0);
        HostEditKeepsRecovered(a.dir.etc, content, a.current);
      case Restart(_) =>
    }
  }

  lemma HostEditKeepsRecovered(etc: map<string, string>, content: string, v: nat)
    requires IsRecovered(etc, v) && BackupVersion(HOST) == None
    ensures IsRecovered(etc[HOST := content], v)
  {
    if v != 0 {
      var name :| name in etc && BackupVersion(name) == Some(v);
      assert name in etc[HOST := content];
    }
  }

  /** While they are in step, a restart changes nothing, so it changes no later decision either. */
  lemma RestartIsInvisible(a: Agent, step: Step)
    requires Synced(a) && Enabled(a, step) && step.Restart?
    ensures Apply(a, step) == a
  {
    RecoveredIsUnique(a.dir.etc, a.current, step.recovered);
  }

  /** A half-applied push is accepted again if repeated at once, and refused as stale after a restart. */
  lemma HalfAppliedPushMakesRestartVisible(a: Agent, step: Step, recovered: nat)
    requires Synced(a) && HalfApplied(a, step)
    requires Enabled(Apply(a, step), Restart(recovered))
    ensures var b := Apply(a, step);
            var c := Apply(b, Restart(recovered));
            && Handle(b.dir, b.current, step.config, step.version, true, Some("")).1 == Applied
            && Handle(c.dir, c.current, step.config, step.version, true, Some("")).1 == Stale
  {
    WrittenRecovers(a.dir.etc, a.current, step.version, step.config);
    RecoveredIsUnique(Apply(a, step).dir.etc, recovered, step.version);
  }

  /** The checks that come before the first write. */
  predicate RefusedEarly(d: Dir, current: nat, version: nat, valid: bool) {
    version <= current || !valid || HOST !in d.etc
  }

  /** The files a push would write are already there, byte for byte. */
  predicate AlreadyWritten(d: Dir, config: string, version: nat) {
    && HOST in d.etc && d.etc[HOST] == config && HOST_TMP !in d.etc
    && BakName(version) in d.etc && d.etc[BakName(version)] == config
  }

  /**
   A push that does not succeed leaves the files as they were if and only if it fails one of the checks
   that come before the first write, or would have written what is already there.
   */
  lemma FailedPushKeepsFilesIff(d: Dir, current: nat, config: string, version: nat, valid: bool, oxfile: Option<string>)
    ensures var (after, verdict) := Handle(d, current, config, version, valid, oxfile);
            !verdict.Applied? ==>
            (after == d <==> RefusedEarly(d, current, version, valid) || AlreadyWritten(d, config, version))
    ensures Handle(d, current, config, version, valid, oxfile).1.Applied?
            <==> !RefusedEarly(d, current, version, valid) && oxfile.Some?
  {
    BackupIsNoHostFile(version);
    assert HOST != HOST_TMP;
    var written := d.etc[BakName(version) := if HOST in d.etc then d.etc[HOST] else ""][HOST := config] - {HOST_TMP};
    assert BakName(version) in written && HOST in written && HOST_TMP !in written;
  }

  /** In an agent whose memory and disk are in step, the early checks are the whole condition. */
  lemma RejectedMeansUnchangedIffEarly(a: Agent, config: string, version: Version, valid: bool, oxfile: Option<string>)
    requires Synced(a)
    ensures var (after, verdict) := Handle(a.dir, a.current, config, version, valid, oxfile);
            !verdict.Applied? ==> (after == a.dir <==> version <= a.current || !valid || HOST !in a.dir.etc)
  {
    FailedPushKeepsFilesIff(a.dir, a.current, config, version, valid, oxfile);
    if a.current < version {
      NotYetBackedUp(a.dir.etc, a.current, version);
    }
  }

  lemma NotYetBackedUp(etc: map<string, string>, current: nat, version: Version)
    requires IsRecovered(etc, current) && current < version
    ensures BakName(version) !in etc
  {
    BackupNames(version);
  }

  /** A push refused for its version, by validation or for want of a host.yaml changes no file. */
  lemma RefusedPushChangesNothing(
    d: Dir, current: nat, config: string, version: nat, valid: bool, oxfile: Option<string>)
    ensures var (after, verdict) := Handle(d, current, config, version, valid, oxfile);
            && (verdict.Stale? || verdict.Invalid? || verdict.NoHost? ==> after == d)
            && (verdict.Stale? <==> version <= current)
            && (verdict.Invalid? <==> version > current && !valid)
            && (verdict.NoHost? <==> version > current && valid && HOST !in d.etc)
            && (verdict.Applied? ==> after.etc[HOST] == config && after.oxfile == oxfile
                                     && after.etc[BakName(version)] == d.etc[HOST])
            && (verdict.OxfileRefused? ==> after.etc[HOST] == config && after.oxfile == d.oxfile)
  {
    assert |BakName(version)| > |HOST_TMP|;
  }

  // ---- Runs ----

  ghost predicate Legal(a: Agent, steps: seq<Step>)
    decreases |steps|
  {
    steps == [] ||
    (Legal(a, steps[..|steps| - 1]) && Enabled(Exec(a, steps[..|steps| - 1]), steps[|steps| - 1]))
  }

  function Exec(a: Agent, steps: seq<Step>): Agent {
    if steps == [] then a else Apply(Exec(a, steps[..|steps| - 1]), steps[|steps| - 1])
  }

  /** No push of the run stops half way. */
  predicate Whole(a: Agent, steps: seq<Step>) {
    steps == [] ||
    (Whole(a, steps[..|steps| - 1]) && !HalfApplied(Exec(a, steps[..|steps| - 1]), steps[|steps| - 1]))
  }

  /** Memory and disk are in step after every prefix of the run. */
  ghost predicate SyncedThroughout(a: Agent, steps: seq<Step>)
    decreases |steps|
  {
    Synced(Exec(a, steps)) && (steps == [] || SyncedThroughout(a, steps[..|steps| - 1]))
  }

  /** They stay in step through a run if and only if no push of it stops half way. */
  lemma {:induction false} InStepIffWhole(a: Agent, steps: seq<Step>)
    requires Synced(a) && Legal(a, steps)
    ensures SyncedThroughout(a, steps) <==> Whole(a, steps)
    decreases |steps|
  {
    if steps != [] {
      var init := steps[..|steps| - 1];
      InStepIffWhole(a, init);
      if SyncedThroughout(a, init) {
        SyncIsLostExactlyByHalfAppliedPushes(Exec(a, init), steps[|steps| - 1]);
      }
    }
  }

  /** The versions that went live are 64-bit and strictly increase up to the current one. */
  ghost predicate Increasing(first: nat, a: Agent) {
    && (forall i :: 0 <= i < |a.landed| ==> first < a.landed[i].version <= Decimal.U64_MAX)
    && (forall i, j :: 0 <= i < j < |a.landed| ==> a.landed[i].version < a.landed[j].version)
    && a.current == if a.landed == [] then first else a.landed[|a.landed| - 1].version
  }

  /** Each backup of a push that went live still holds what it replaced. */
  ghost predicate HistoryKept(a: Agent) {
    forall i :: 0 <= i < |a.landed| ==>
      BakName(a.landed[i].version) in a.dir.etc && a.dir.etc[BakName(a.landed[i].version)] == a.landed[i].before
  }

  lemma DistinctBackups(v: Version, w: Version)
    requires v != w
    ensures BakName(v) != BakName(w)
  {
    BackupNames(v);
    BackupNames(w);
  }

  lemma BackupIsNoHostFile(v: nat)
    ensures BakName(v) != HOST && BakName(v) != HOST_TMP
  {
    assert |BakName(v)| > |HOST_TMP|;
  }

  lemma StepKeepsIncreasing(first: nat, a: Agent, step: Step)
    requires Synced(a) && Increasing(first, a) && Enabled(a, step)
    ensures Increasing(first, Apply(a, step))
  {
    if step.Restart? {
      RestartIsInvisible(a, step);
    }
  }

  lemma StepKeepsBackups(first: nat, a: Agent, step: Step)
    requires Increasing(first, a) && HistoryKept(a) && (step.Push? ==> !HalfApplied(a, step))
    ensures HistoryKept(Apply(a, step))
  {
    var b := Apply(a, step);
    forall i | 0 <= i < |b.landed|
      ensures BakName(b.landed[i].version) in b.dir.etc && b.dir.etc[BakName(b.landed[i].version)] == b.landed[i].before
    {
      BackupIsNoHostFile(b.landed[i].version);
      if i < |a.landed| && step.Push? && a.current < step.version {
        assert a.landed[i].version <= a.current;
        DistinctBackups(a.landed[i].version, step.version);
      }
    }
  }

  /**
   Main result.  Over every run of pushes, local edits and restarts in which no push stops half way:
   live versions strictly increase, the version a restart recovers is the last one that went live, and
   every backup holds the bytes that were in force just before its push.
   */
  lemma {:induction false} PushesAreAHistory(a: Agent, steps: seq<Step>)
    requires Synced(a) && a.landed == [] && Legal(a, steps) && Whole(a, steps)
    ensures var b := Exec(a, steps);
            && Synced(b) && Increasing(a.current, b) && HistoryKept(b)
            && (b.landed != [] ==> IsRecovered(b.dir.etc, b.landed[|b.landed| - 1].version))
    decreases |steps|
  {
    if steps != [] {
      PushesAreAHistory(a, steps[..|steps| - 1]);
      var before := Exec(a, steps[..|steps| - 1]);
      SyncIsLostExactlyByHalfAppliedPushes(before, steps[|steps| - 1]);
      StepKeepsIncreasing(a.current, before, steps[|steps| - 1]);
      StepKeepsBackups(a.current, before, steps[|steps| - 1]);
    }
  }

  /** The same run with its restarts left out. */
  function WithoutRestarts(steps: seq<Step>): seq<Step> {
    if steps == [] then []
    else
      var last := steps[|steps| - 1];
      WithoutRestarts(steps[..|steps| - 1]) + (if last.Restart? then [] else [last])
  }

  /** Restarts never matter: every file, decision and version is what it would have been without them. */
  lemma {:induction false} RestartsNeverMatter(a: Agent, steps: seq<Step>)
    requires Synced(a) && a.landed == [] && Legal(a, steps) && Whole(a, steps)
    ensures Exec(a, WithoutRestarts(steps)) == Exec(a, steps)
    decreases |steps|
  {
    if steps != [] {
      var init, last := steps[..|steps| - 1], steps[|steps| - 1];
      RestartsNeverMatter(a, init);
      if last.Restart? {
        PushesAreAHistory(a, init);
        RestartIsInvisible(Exec(a, init), last);
        assert WithoutRestarts(steps) == WithoutRestarts(init);
      } else {
        var kept := WithoutRestarts(steps);
        assert kept[..|kept| - 1] == WithoutRestarts(init) && kept[|kept| - 1] == last;
      }
    }
  }

  /** A push touches three names: host.yaml, the temporary file and its own backup. */
  lemma OtherFilesAreLeftAlone(d: Dir, current: nat, config: string, version: nat, valid: bool,
                               oxfile: Option<string>, name: string)
    requires name != "host.yaml" && name != "host.toml.tmp" && name != "host.yaml.bak-" + Decimal.Print(version)
    ensures var after := Handle(d, current, config, version, valid, oxfile).0;
            (name in after.etc <==> name in d.etc) && (name in d.etc ==> after.etc[name] == d.etc[name])
  {
  }

  // ---- The chain of backups ----

  predicate Unedited(steps: seq<Step>) {
    forall i :: 0 <= i < |steps| ==> !steps[i].EditHost?
  }

  /** host.yaml is what the last live push brought, and each backup what the push before brought. */
  ghost predicate Chained(first: map<string, string>, b: Agent) {
    && (HOST in b.dir.etc <==> HOST in first)
    && (b.landed != [] ==> HOST in first && b.landed[0].before == first[HOST])
    && (forall i :: 0 <= i < |b.landed| - 1 ==> b.landed[i + 1].before == b.landed[i].config)
    && (HOST in first ==> b.dir.etc[HOST] == if b.landed == [] then first[HOST] else b.landed[|b.landed| - 1].config)
  }

  lemma StepKeepsChain(first: map<string, string>, a: Agent, step: Step)
    requires Chained(first, a) && !step.EditHost? && !HalfApplied(a, step)
    ensures Chained(first, Apply(a, step))
  {
    if step.Push? {
      BackupIsNoHostFile(step.version);
    }
  }

  /**
   Over every run of pushes and restarts without local edits and without a half-applied push: host.yaml
   holds what the last live push brought, and every backup what the one before it had brought, back to
   the file the vehicle started with.
   */
  lemma {:induction false} BackupsFormAChain(a: Agent, steps: seq<Step>)
    requires a.landed == [] && Legal(a, steps) && Whole(a, steps) && Unedited(steps)
    ensures Chained(a.dir.etc, Exec(a, steps))
    decreases |steps|
  {
    if steps != [] {
      BackupsFormAChain(a, steps[..|steps| - 1]);
      StepKeepsChain(a.dir.etc, Exec(a, steps[..|steps| - 1]), steps[|steps| - 1]);
    }
  }
}
