/**
 One consumer path of the client: its QoE differential state, its slot, and the replay of all slots
 after a reconnect.

 Clock and byte counters are unsigned; the floating-point rate arithmetic is done over the reals,
 with Rust's round-half-away rounding and the saturating cast to u32.
 */
module Consumer {
  import opened Numbers
  import Session
  import opened Wrappers

  const U32_MAX: nat := 0xFFFF_FFFF

  type Stats = Session.VideoStreamStats

  datatype Snapshot = Snapshot(
    fps: nat,
    kbps: nat,
    lostPercent: real,
    decodedTotal: nat,
    avgDecodeMs: nat,
    jitterMs: nat,
    rttMs: nat,
    width: nat,
    height: nat,
    epoch: nat)

  function SaturatingSub(a: nat, b: nat): nat { if a < b then 0 else a - b }

  /** `x.round() as u32`: half away from zero, then saturated; negative values become 0. */
  function RoundU32(x: real): nat {
    var r := (x + 0.5).Floor;
    if r < 0 then 0 else if r > U32_MAX then U32_MAX else r
  }

  /** The fields of the differ that change on each tick. */
  datatype Baseline = Baseline(bytes: nat, ts: nat, decodeTime: real, frames: nat, epoch: nat)

  function Kbps(b: Baseline, s: Stats, now: nat): nat {
    if b.ts > 0 && now > b.ts then
      RoundU32(SaturatingSub(s.bytesReceived, b.bytes) as real * 8.0 / ((now - b.ts) as real / 1000.0) / 1000.0)
    else 0
  }

  function AvgDecodeMs(b: Baseline, s: Stats, now: nat): nat {
    var frames := SaturatingSub(s.framesDecoded, b.frames);
    if b.ts > 0 && now > b.ts && frames > 0 then
      RoundU32(MaxReal(s.totalDecodeTime - b.decodeTime, 0.0) * 1000.0 / frames as real)
    else 0
  }

  function LostPercent(s: Stats): real {
    var total := s.packetsLost + s.packetsReceived;
    if total > 0 then s.packetsLost as real / total as real * 100.0 else 0.0
  }

  /** The snapshot reported by a tick; the round-trip time is sampled elsewhere. */
  function Report(b: Baseline, s: Stats, now: nat): Snapshot {
    Snapshot(RoundU32(s.framesPerSecond), Kbps(b, s, now), LostPercent(s), s.framesDecoded, AvgDecodeMs(b, s, now),
             RoundU32(s.jitter * 1000.0), 0, s.frameWidth, s.frameHeight, b.epoch)
  }

  function Tick(b: Baseline, s: Stats, now: nat): Baseline {
    Baseline(s.bytesReceived, now, s.totalDecodeTime, s.framesDecoded, b.epoch)
  }

  function Bump(b: Baseline): Baseline {
    b.(epoch := (b.epoch + 1) % (U32_MAX + 1), ts := 0, decodeTime := 0.0, frames := 0)
  }

  class QoeDiffer {
    var lastBytes: nat
    var lastTsMs: nat
    var lastDecodeTime: real
    var lastFramesDecoded: nat
    var epoch: nat

    ghost function View(): Baseline
      reads this
    {
      Baseline(lastBytes, lastTsMs, lastDecodeTime, lastFramesDecoded, epoch)
    }

    constructor ()
      ensures View() == Baseline(0, 0, 0.0, 0, 0)
    {
      lastBytes, lastTsMs, lastDecodeTime, lastFramesDecoded, epoch := 0, 0, 0.0, 0, 0;
    }

    method Diff(stats: Stats, nowMs: nat) returns (snap: Snapshot)
      modifies this
      ensures View() == Tick(old(View()), stats, nowMs)
      ensures snap == Report(old(View()), stats, nowMs)
    {
      var kbps, avgDecodeMs := 0, 0;
      if lastTsMs > 0 && nowMs > lastTsMs {
        var elapsed := (nowMs - lastTsMs) as real / 1000.0;
        var delta := SaturatingSub(stats.bytesReceived, lastBytes);
        kbps := RoundU32(delta as real * 8.0 / elapsed / 1000.0);
        var decoded := SaturatingSub(stats.framesDecoded, lastFramesDecoded);
        if decoded > 0 {
          var seconds := MaxReal(stats.totalDecodeTime - lastDecodeTime, 0.0);
          avgDecodeMs := RoundU32(seconds * 1000.0 / decoded as real);
        }
      }
      lastBytes, lastTsMs := stats.bytesReceived, nowMs;
      lastDecodeTime, lastFramesDecoded := stats.totalDecodeTime, stats.framesDecoded;
      var lost := stats.packetsLost;
      var total := lost + stats.packetsReceived;
      snap := Snapshot(RoundU32(stats.framesPerSecond), kbps,
                       if total > 0 then lost as real / total as real * 100.0 else 0.0,
                       stats.framesDecoded, avgDecodeMs, RoundU32(stats.jitter * 1000.0), 0,
                       stats.frameWidth, stats.frameHeight, epoch);
    }

    method BumpEpoch()
      modifies this
      ensures View() == Bump(old(View()))
    {
      epoch := (epoch + 1) % (U32_MAX + 1);
      lastTsMs, lastDecodeTime, lastFramesDecoded := 0, 0.0, 0;
    }
  }

  // ---- What a report says ----

  /** Rounding gives a nearest whole number while it fits; below zero it gives 0, above the range its end. */
  lemma RoundedIsNearest(x: real)
    ensures 0.0 <= x <= U32_MAX as real ==> -0.5 <= RoundU32(x) as real - x <= 0.5
    ensures x < 0.0 ==> RoundU32(x) == 0
    ensures x > U32_MAX as real ==> RoundU32(x) == 0xFFFF_FFFF
  {
  }

  /** The loss is the share of all packets, lost and received, that were lost. */
  lemma LossIsAShare(s: Stats)
    ensures 0.0 <= LostPercent(s) <= 100.0
    ensures LostPercent(s) * (s.packetsLost + s.packetsReceived) as real == 100.0 * s.packetsLost as real
    ensures s.packetsLost == 0 || s.packetsReceived == 0 ==> LostPercent(s) == if s.packetsLost == 0 then 0.0 else 100.0
  {
    var lost, total := s.packetsLost as real, (s.packetsLost + s.packetsReceived) as real;
    if total > 0.0 {
      Share(lost, total);
      if s.packetsReceived == 0 {
        AllIsAll(lost);
      }
    }
  }

  lemma AllIsAll(x: real)
    requires x > 0.0
    ensures x / x == 1.0
  {
  }

  lemma Share(part: real, whole: real)
    requires 0.0 <= part <= whole && whole > 0.0
    ensures 0.0 <= part / whole * 100.0 <= 100.0 && part / whole * 100.0 * whole == 100.0 * part
  {
    var q := part / whole;
    assert q * whole == part;
    assert 0.0 <= q <= 1.0;
  }

  /** Each field of a report reads its own counter or measurement, and the decode time per frame is to the nearest. */
  lemma ReportReadsTheStats(b: Baseline, s: Stats, now: nat)
    ensures var r := Report(b, s, now);
            && r.decodedTotal == s.framesDecoded && r.width == s.frameWidth && r.height == s.frameHeight
            && r.epoch == b.epoch && r.rttMs == 0
            && (0.0 <= s.framesPerSecond <= U32_MAX as real ==> -0.5 <= r.fps as real - s.framesPerSecond <= 0.5)
            && (0.0 <= s.jitter * 1000.0 <= U32_MAX as real ==> -0.5 <= r.jitterMs as real - s.jitter * 1000.0 <= 0.5)
            && (s.packetsLost + s.packetsReceived > 0 ==>
                r.lostPercent * (s.packetsLost + s.packetsReceived) as real == 100.0 * s.packetsLost as real)
            && (b.ts == 0 || now <= b.ts || s.framesDecoded <= b.frames || s.totalDecodeTime <= b.decodeTime ==>
                r.avgDecodeMs == 0)
            && (b.ts == 0 || now <= b.ts || s.bytesReceived <= b.bytes ==> r.kbps == 0)
    ensures b.ts > 0 && now > b.ts && s.framesDecoded > b.frames && s.totalDecodeTime >= b.decodeTime ==>
              var exact := (s.totalDecodeTime - b.decodeTime) * 1000.0 / (s.framesDecoded - b.frames) as real;
              exact <= U32_MAX as real ==> -0.5 <= Report(b, s, now).avgDecodeMs as real - exact <= 0.5
  {
    RoundedIsNearest(s.framesPerSecond);
    RoundedIsNearest(s.jitter * 1000.0);
    LossIsAShare(s);
    ZeroRounds();
    if b.ts > 0 && now > b.ts {
      NoBytesNoRate(now - b.ts);
      if s.framesDecoded > b.frames {
        var n := (s.framesDecoded - b.frames) as real;
        NoTimeNoAverage(n);
        if s.totalDecodeTime >= b.decodeTime {
          NotNegative((s.totalDecodeTime - b.decodeTime) * 1000.0, n);
          RoundedIsNearest((s.totalDecodeTime - b.decodeTime) * 1000.0 / n);
        }
      }
    }
  }

  /** Two ticks in one epoch: the second reports the decode time per frame, and the rate, of what came between. */
  lemma SecondTickReportsTheDifference(b: Baseline, s: Stats, t: nat, later: Stats, now: nat)
    requires 0 < t < now
    ensures var r := Report(Tick(b, s, t), later, now);
            && r.epoch == b.epoch
            && (later.bytesReceived >= s.bytesReceived && Fits(later.bytesReceived - s.bytesReceived, now - t) ==>
                2 * Abs(r.kbps * (now - t) - 8 * (later.bytesReceived - s.bytesReceived)) <= now - t)
            && (later.framesDecoded > s.framesDecoded && later.totalDecodeTime >= s.totalDecodeTime ==>
                var exact := (later.totalDecodeTime - s.totalDecodeTime) * 1000.0
                             / (later.framesDecoded - s.framesDecoded) as real;
                exact <= U32_MAX as real ==> -0.5 <= r.avgDecodeMs as real - exact <= 0.5)
  {
    ReportReadsTheStats(Tick(b, s, t), later, now);
    if later.bytesReceived >= s.bytesReceived {
      RateIsWithinHalfIffItFits(later.bytesReceived - s.bytesReceived, now - t);
    }
  }

  lemma ZeroRounds()
    ensures RoundU32(0.0) == 0
  {
  }

  lemma NoBytesNoRate(ms: nat)
    requires ms > 0
    ensures 0.0 * 8.0 / (ms as real / 1000.0) / 1000.0 == 0.0
  {
  }

  lemma NoTimeNoAverage(n: real)
    requires n > 0.0
    ensures 0.0 * 1000.0 / n == 0.0
  {
  }

  lemma NotNegative(x: real, n: real)
    requires x >= 0.0 && n > 0.0
    ensures x / n >= 0.0
  {
  }

  // ---- The rates add up to the bytes ----

  datatype Sample = Sample(stats: Stats, now: nat)

  /** The baseline after each tick of a run. */
  function After(b: Baseline, run: seq<Sample>): Baseline {
    if run == [] then b
    else Tick(After(b, run[..|run| - 1]), run[|run| - 1].stats, run[|run| - 1].now)
  }

  /** Kilobits reported over a run: each tick's rate times the milliseconds it covers. */
  function Reported(b: Baseline, run: seq<Sample>): int {
    if run == [] then 0
    else
      var before := After(b, run[..|run| - 1]);
      var x := run[|run| - 1];
      Reported(b, run[..|run| - 1]) + Kbps(before, x.stats, x.now) * (x.now - before.ts)
  }

  /** The rate of a step is at most half a kbps above the largest u32. */
  predicate Fits(bytes: nat, ms: nat) {
    16 * bytes <= (2 * U32_MAX + 1) * ms
  }

  predicate Steady(b: Baseline, x: Sample) {
    b.ts < x.now && b.bytes <= x.stats.bytesReceived && Fits(x.stats.bytesReceived - b.bytes, x.now - b.ts)
  }

  /** A run of ticks with an increasing clock, non-decreasing counters and representable rates. */
  predicate SteadyRun(b: Baseline, run: seq<Sample>) {
    run == [] || (SteadyRun(b, run[..|run| - 1]) && Steady(After(b, run[..|run| - 1]), run[|run| - 1]))
  }

  function Abs(x: int): nat { if x < 0 then -x else x }

  lemma RealRateIsExact(bytes: nat, ms: nat)
    requires ms > 0
    ensures bytes as real * 8.0 / (ms as real / 1000.0) / 1000.0 == (8 * bytes) as real / ms as real
  {
    var b, m := bytes as real, ms as real;
    assert m / 1000.0 > 0.0;
    assert b * 8.0 / (m / 1000.0) == b * 8.0 * 1000.0 / m by {
      assert b * 8.0 * 1000.0 / m * (m / 1000.0) == b * 8.0;
    }
    assert b * 8.0 * 1000.0 / m / 1000.0 == b * 8.0 / m;
  }

  lemma ScaleKeepsOrder(a: real, b: real, m: real)
    requires a <= b && m > 0.0
    ensures a * m <= b * m
  {
  }

  lemma FittingRateIsHardlyCapped(r: int, bytes: nat, ms: nat)
    requires ms > 0 && Fits(bytes, ms) && (2 * r - 1) * ms <= 16 * bytes
    ensures r <= U32_MAX + 1
  {
    calc <== {
      2 * r - 1 <= 2 * U32_MAX + 1;
      (2 * r - 1) * ms <= (2 * U32_MAX + 1) * ms;
    }
  }

  lemma RoundingBracket(bytes: nat, ms: nat) returns (r: nat)
    requires ms > 0
    ensures RoundU32(bytes as real * 8.0 / (ms as real / 1000.0) / 1000.0) == if r > U32_MAX then U32_MAX else r
    ensures (2 * r - 1) * ms <= 16 * bytes <= (2 * r + 1) * ms
  {
    RealRateIsExact(bytes, ms);
    var q := (8 * bytes) as real / ms as real;
    r := (q + 0.5).Floor;
    Quotient(8 * bytes, ms);
    HalfBelow(r, q, ms, 8 * bytes);
    HalfAbove(r, q, ms, 8 * bytes);
  }

  lemma Quotient(n: nat, m: nat)
    requires m > 0
    ensures n as real / m as real >= 0.0 && (n as real / m as real) * m as real == n as real
  {
  }

  lemma RealProduct(a: int, m: nat)
    ensures (a * m) as real == a as real * m as real
  {
  }

  lemma HalfBelow(r: int, q: real, m: nat, n: nat)
    requires m > 0 && r as real - 0.5 <= q && q * m as real == n as real
    ensures (2 * r - 1) * m <= 2 * n
  {
    ScaleKeepsOrder(r as real - 0.5, q, m as real);
    RealProduct(2 * r - 1, m);
    assert (2 * r - 1) as real * m as real == 2.0 * ((r as real - 0.5) * m as real);
  }

  lemma HalfAbove(r: int, q: real, m: nat, n: nat)
    requires m > 0 && q <= r as real + 0.5 && q * m as real == n as real
    ensures 2 * n <= (2 * r + 1) * m
  {
    ScaleKeepsOrder(q, r as real + 0.5, m as real);
    RealProduct(2 * r + 1, m);
    assert (2 * r + 1) as real * m as real == 2.0 * ((r as real + 0.5) * m as real);
  }

  /**
   One rounded rate is off by at most half a kilobit per millisecond covered exactly when it fits:
   a rate beyond that is saturated and under-reports by more.
   */
  lemma RateIsWithinHalfIffItFits(bytes: nat, ms: nat)
    requires ms > 0
    ensures var rate := RoundU32(bytes as real * 8.0 / (ms as real / 1000.0) / 1000.0);
            2 * Abs(rate * ms - 8 * bytes) <= ms <==> Fits(bytes, ms)
  {
    var r := RoundingBracket(bytes, ms);
    assert 2 * (r * ms) - ms <= 16 * bytes <= 2 * (r * ms) + ms;
    if Fits(bytes, ms) {
      FittingRateIsHardlyCapped(r, bytes, ms);
      assert r == U32_MAX + 1 ==> r * ms == U32_MAX * ms + ms;
    } else if r <= U32_MAX {
      ScaleNat(2 * r + 1, 2 * U32_MAX + 1, ms);
    }
  }

  lemma ScaleNat(a: nat, b: nat, m: nat)
    requires a <= b
    ensures a * m <= b * m
  {
  }

  /**
   Over any steady run that starts from a built baseline, the reported kilobits differ from the eight
   bits per byte actually received by at most half a kilobit per elapsed millisecond.
   */
  lemma {:induction false} RatesAddUpToBytes(b: Baseline, run: seq<Sample>)
    requires b.ts > 0 && SteadyRun(b, run)
    ensures var e := After(b, run);
            && e.ts >= b.ts && e.bytes >= b.bytes
            && 2 * Abs(Reported(b, run) - 8 * (e.bytes - b.bytes)) <= e.ts - b.ts
  {
    if run != [] {
      var init, x := run[..|run| - 1], run[|run| - 1];
      RatesAddUpToBytes(b, init);
      var before := After(b, init);
      RateIsWithinHalfIffItFits(x.stats.bytesReceived - before.bytes, x.now - before.ts);
    }
  }

  /** The first tick after a pc swap reports zero rates, whatever the counters did. */
  lemma FirstTickAfterBumpIsZero(b: Baseline, s: Stats, now: nat)
    ensures Kbps(Bump(b), s, now) == 0 && AvgDecodeMs(Bump(b), s, now) == 0
    ensures Bump(b).epoch != b.epoch || b.epoch > U32_MAX
  {
  }

  // ---- Slots and their replay ----

  const REPLAY_ATTEMPTS: nat := 3

  /** One ledger entry: what it consumes and where its frames go never change; its pc can be replaced. */
  class ConsumerSlot {
    const producerId: string
    const frameTx: nat
    var pc: Option<nat>
    const differ: QoeDiffer

    constructor (producerId: string, frameTx: nat)
      ensures this.producerId == producerId && this.frameTx == frameTx && pc == None
      ensures fresh(differ) && differ.View() == Baseline(0, 0, 0.0, 0, 0)
    {
      this.producerId, this.frameTx, pc := producerId, frameTx, None;
      differ := new QoeDiffer();
    }

    method SetPc(p: nat)
      modifies this, differ
      ensures pc == Some(p) && differ.View() == Bump(old(differ.View()))
    {
      pc := Some(p);
      differ.BumpEpoch();
    }
  }

  /** What the environment does to one slot: is it withdrawn, each attempt's pc, shutdown in each gap. */
  datatype Fate = Fate(dead: bool, attempts: seq<Option<nat>>, stops: seq<bool>)

  predicate Complete(f: Fate) {
    |f.attempts| == REPLAY_ATTEMPTS && |f.stops| == REPLAY_ATTEMPTS
  }

  /** The number of attempts made on a slot when no shutdown intervenes. */
  function Attempts(f: Fate): nat
    requires Complete(f)
  {
    if f.dead then 0
    else if f.attempts[0].Some? then 1
    else if f.attempts[1].Some? then 2
    else 3
  }

  /** The pc a slot ends up with, if an attempt on it succeeded. */
  function Healed(f: Fate): Option<nat>
    requires Complete(f)
  {
    if f.dead then None
    else if f.attempts[0].Some? then f.attempts[0]
    else if f.attempts[1].Some? then f.attempts[1]
    else f.attempts[2]
  }

  /** A shutdown is seen in the gap after a failed attempt that is not the last. */
  predicate Stops(f: Fate)
    requires Complete(f)
  {
    !f.dead && f.attempts[0].None? && (f.stops[0] || (f.attempts[1].None? && f.stops[1]))
  }

  /** A slot that was not touched. */
  twostate predicate Kept(slot: ConsumerSlot)
    reads slot, slot.differ
  {
    slot.pc == old(slot.pc) && slot.differ.View() == old(slot.differ.View())
  }

  /** A slot as its fate alone decides: a new pc in a new epoch exactly when an attempt succeeded. */
  twostate predicate EndsAs(slot: ConsumerSlot, f: Fate)
    requires Complete(f)
    reads slot, slot.differ
  {
    if Healed(f).Some? then slot.pc == Healed(f) && slot.differ.View() == Bump(old(slot.differ.View()))
    else Kept(slot)
  }

  method ReplaySlot(slot: ConsumerSlot, f: Fate) returns (made: nat, stopped: bool)
    requires Complete(f)
    modifies slot, slot.differ
    ensures stopped <==> Stops(f)
    ensures made <= REPLAY_ATTEMPTS && (!stopped ==> made == Attempts(f))
    ensures if stopped then Kept(slot) else EndsAs(slot, f)
  {
    made, stopped := 0, false;
    if f.dead {
      return;
    }
    while made < REPLAY_ATTEMPTS
      invariant 0 <= made <= REPLAY_ATTEMPTS && !stopped
      invariant forall j :: 0 <= j < made ==> f.attempts[j].None?
      invariant forall j :: 0 <= j < made && j + 1 < REPLAY_ATTEMPTS ==> !f.stops[j]
      invariant slot.pc == old(slot.pc) && slot.differ.View() == old(slot.differ.View())
    {
      var result := f.attempts[made];
      made := made + 1;
      match result {
        case Some(p) =>
          slot.SetPc(p);
          return;
        case None =>
          if made < REPLAY_ATTEMPTS && f.stops[made - 1] {
            stopped := true;
            return;
          }
      }
    }
  }

  /** Slots are registered one object each, so no two of them share any state. */
  ghost predicate Separate(slots: seq<ConsumerSlot>) {
    forall i, j :: 0 <= i < j < |slots| ==> slots[i] != slots[j] && slots[i].differ != slots[j].differ
  }

  /**
   Replay of all slots.  Every slot before the first shutdown ends as its own fate alone decides; the
   one the shutdown hits and all later ones are untouched; without a shutdown all slots are done.
   */
  method ReplayConsumers(slots: seq<ConsumerSlot>, fates: seq<Fate>) returns (made: seq<nat>, done: nat)
    requires |fates| == |slots| && Separate(slots)
    requires forall i :: 0 <= i < |fates| ==> Complete(fates[i])
    modifies slots, set i | 0 <= i < |slots| :: slots[i].differ
    ensures done <= |slots| <= |fates| && done <= |made|
    ensures forall i :: 0 <= i < done ==> !Stops(fates[i]) && made[i] == Attempts(fates[i])
    ensures done < |slots| <==> exists i :: 0 <= i < |slots| && Stops(fates[i])
    ensures done < |slots| ==> Stops(fates[done])
    ensures forall i :: 0 <= i < done ==> EndsAs(slots[i], fates[i])
    ensures forall i :: done <= i < |slots| ==> Kept(slots[i])
  {
    made, done := [], 0;
    while done < |slots|
      invariant 0 <= done <= |slots| && |made| == done
      invariant forall i :: 0 <= i < done ==> !Stops(fates[i]) && made[i] == Attempts(fates[i])
      invariant forall i :: 0 <= i < done ==> EndsAs(slots[i], fates[i])
      invariant forall i :: done <= i < |slots| ==> Kept(slots[i])
    {
      var n, stopped := ReplaySlot(slots[done], fates[done]);
      made := made + [n];
      if stopped {
        return;
      }
      done := done + 1;
    }
  }
}
