/**
 Folding a statistics table into one reading per consumer path.

 A table can hold several rows of one stream: a stale one frozen at its last timestamp and a current
 one.  Counters are unbounded and measurements are reals.
 */
module Session {
  import opened Numbers

  type Key = (nat, string)

  datatype Inbound = Inbound(
    ssrc: nat,
    id: string,
    timestamp: real,
    bytesReceived: nat,
    packetsReceived: nat,
    packetsLost: nat,
    framesDecoded: nat,
    frameWidth: nat,
    frameHeight: nat,
    framesPerSecond: real,
    jitter: real,
    totalDecodeTime: real,
    frameDropped: nat,
    nackCount: nat,
    pliCount: nat,
    firCount: nat)
  {
    function KeyOf(): Key { (ssrc, id) }
  }

  datatype Row = InboundRtp(r: Inbound) | OtherRow(kind: string)

  datatype VideoStreamStats = VideoStreamStats(
    bytesReceived: nat,
    packetsReceived: nat,
    packetsLost: nat,
    framesDecoded: nat,
    frameWidth: nat,
    frameHeight: nat,
    framesPerSecond: real,
    jitter: real,
    totalDecodeTime: real,
    frameDropped: nat,
    nackCount: nat,
    pliCount: nat,
    firCount: nat)

  const ZERO := VideoStreamStats(0, 0, 0, 0, 0, 0, 0.0, 0.0, 0.0, 0, 0, 0, 0)

  function Max(a: nat, b: nat): nat { if a < b then b else a }
  /** Counters add up, dimensions and measurements take the larger one. */
  function Merge(a: VideoStreamStats, b: VideoStreamStats): VideoStreamStats {
    VideoStreamStats(
      a.bytesReceived + b.bytesReceived, a.packetsReceived + b.packetsReceived, a.packetsLost + b.packetsLost,
      a.framesDecoded + b.framesDecoded, Max(a.frameWidth, b.frameWidth), Max(a.frameHeight, b.frameHeight),
      MaxReal(a.framesPerSecond, b.framesPerSecond), MaxReal(a.jitter, b.jitter),
      MaxReal(a.totalDecodeTime, b.totalDecodeTime), a.frameDropped + b.frameDropped,
      a.nackCount + b.nackCount, a.pliCount + b.pliCount, a.firCount + b.firCount)
  }

  function Reading(r: Inbound): VideoStreamStats {
    VideoStreamStats(r.bytesReceived, r.packetsReceived, r.packetsLost, r.framesDecoded, r.frameWidth, r.frameHeight,
                     r.framesPerSecond, r.jitter, r.totalDecodeTime, r.frameDropped,
                     r.nackCount, r.pliCount, r.firCount)
  }

  // ---- The declarative result ----

  /** `r` is the newest row of its key: no row of that key is newer, and it is the first of its age. */
  ghost predicate IsNewest(rows: seq<Row>, r: Inbound) {
    exists i :: 0 <= i < |rows| && rows[i] == InboundRtp(r)
      && forall j :: 0 <= j < |rows| && rows[j].InboundRtp? && rows[j].r.KeyOf() == r.KeyOf() ==>
           rows[j].r.timestamp <= r.timestamp && (j < i ==> rows[j].r.timestamp < r.timestamp)
  }

  ghost predicate HasKey(rows: seq<Row>, k: Key) {
    exists i :: 0 <= i < |rows| && rows[i].InboundRtp? && rows[i].r.KeyOf() == k
  }

  /** Exactly the newest row of each key that occurs. */
  ghost predicate IsLatest(rows: seq<Row>, latest: map<Key, Inbound>) {
    && (forall k :: k in latest <==> HasKey(rows, k))
    && (forall k :: k in latest ==> latest[k].KeyOf() == k && IsNewest(rows, latest[k]))
  }

  /** Sum and maximum over a set of rows, in whatever order. */
  ghost function Total(latest: map<Key, Inbound>): VideoStreamStats
    decreases |latest|
  {
    if latest == map[] then ZERO
    else
      var k :| k in latest;
      Merge(Total(latest - {k}), Reading(latest[k]))
  }

  lemma MergeSwaps(a: VideoStreamStats, b: VideoStreamStats, c: VideoStreamStats)
    ensures Merge(Merge(a, b), c) == Merge(Merge(a, c), b)
  {
  }

  /** The order does not matter: any row can be the last one added. */
  lemma {:induction false} TotalAnyOrder(latest: map<Key, Inbound>, k: Key)
    requires k in latest
    ensures Total(latest) == Merge(Total(latest - {k}), Reading(latest[k]))
    decreases |latest|
  {
    var c :| c in latest && Total(latest) == Merge(Total(latest - {c}), Reading(latest[c]));
    if c != k {
      TotalAnyOrder(latest - {c}, k);
      TotalAnyOrder(latest - {k}, c);
      assert latest - {c} - {k} == latest - {k} - {c};
      MergeSwaps(Total(latest - {k} - {c}), Reading(latest[k]), Reading(latest[c]));
    }
  }

  /** `t` is at least `r` in every field. */
  predicate Covers(t: VideoStreamStats, r: VideoStreamStats) {
    Merge(t, r) == t.(bytesReceived := t.bytesReceived + r.bytesReceived,
                      packetsReceived := t.packetsReceived + r.packetsReceived,
                      packetsLost := t.packetsLost + r.packetsLost,
                      framesDecoded := t.framesDecoded + r.framesDecoded,
                      frameDropped := t.frameDropped + r.frameDropped,
                      nackCount := t.nackCount + r.nackCount,
                      pliCount := t.pliCount + r.pliCount,
                      firCount := t.firCount + r.firCount)
    && r.bytesReceived <= t.bytesReceived && r.packetsReceived <= t.packetsReceived
    && r.packetsLost <= t.packetsLost && r.framesDecoded <= t.framesDecoded && r.frameDropped <= t.frameDropped
    && r.nackCount <= t.nackCount && r.pliCount <= t.pliCount && r.firCount <= t.firCount
  }

  /** Every counter covers, and every maximum bounds, each single row. */
  lemma TotalCovers(latest: map<Key, Inbound>, k: Key)
    requires k in latest
    ensures Covers(Total(latest), Reading(latest[k]))
  {
    TotalAnyOrder(latest, k);
  }

  /** With any one more row, every counter grows by the row's, every maximum to the row's if that is larger. */
  lemma AddingARow(latest: map<Key, Inbound>, k: Key)
    requires k in latest
    ensures var t, u, r := Total(latest), Total(latest - {k}), latest[k];
            && t.bytesReceived == u.bytesReceived + r.bytesReceived
            && t.packetsReceived == u.packetsReceived + r.packetsReceived
            && t.packetsLost == u.packetsLost + r.packetsLost
            && t.framesDecoded == u.framesDecoded + r.framesDecoded
            && t.frameDropped == u.frameDropped + r.frameDropped
            && t.nackCount == u.nackCount + r.nackCount
            && t.pliCount == u.pliCount + r.pliCount
            && t.firCount == u.firCount + r.firCount
            && t.frameWidth == (if u.frameWidth < r.frameWidth then r.frameWidth else u.frameWidth)
            && t.frameHeight == (if u.frameHeight < r.frameHeight then r.frameHeight else u.frameHeight)
            && t.framesPerSecond
               == (if u.framesPerSecond < r.framesPerSecond then r.framesPerSecond else u.framesPerSecond)
            && t.jitter == (if u.jitter < r.jitter then r.jitter else u.jitter)
            && t.totalDecodeTime
               == (if u.totalDecodeTime < r.totalDecodeTime then r.totalDecodeTime else u.totalDecodeTime)
    ensures Total(map[]) == VideoStreamStats(0, 0, 0, 0, 0, 0, 0.0, 0.0, 0.0, 0, 0, 0, 0)
  {
    TotalAnyOrder(latest, k);
  }

  /** No row exceeds a maximum. */
  lemma MaximaBound(latest: map<Key, Inbound>, k: Key)
    requires k in latest
    ensures var t, r := Total(latest), latest[k];
            && r.frameWidth <= t.frameWidth && r.frameHeight <= t.frameHeight
            && r.framesPerSecond <= t.framesPerSecond && r.jitter <= t.jitter && r.totalDecodeTime <= t.totalDecodeTime
  {
    AddingARow(latest, k);
  }

  /** A maximum is some row's value, or zero for want of a positive one. */
  lemma {:induction false} MaximaAreAttained(latest: map<Key, Inbound>)
    ensures var t := Total(latest);
            && (t.frameWidth == 0 || exists k :: k in latest && latest[k].frameWidth == t.frameWidth)
            && (t.frameHeight == 0 || exists k :: k in latest && latest[k].frameHeight == t.frameHeight)
            && (t.framesPerSecond == 0.0 || exists k :: k in latest && latest[k].framesPerSecond == t.framesPerSecond)
            && (t.jitter == 0.0 || exists k :: k in latest && latest[k].jitter == t.jitter)
            && (t.totalDecodeTime == 0.0 || exists k :: k in latest && latest[k].totalDecodeTime == t.totalDecodeTime)
    decreases |latest|
  {
    if latest != map[] {
      var k :| k in latest;
      AddingARow(latest, k);
      MaximaAreAttained(latest - {k});
      assert forall x :: x in latest - {k} ==> x in latest && latest[x] == (latest - {k})[x];
    }
  }

  // ---- The fold ----

  method FoldInboundStats(rows: seq<Row>) returns (out: VideoStreamStats)
    ensures exists newest :: IsLatest(rows, newest) && out == Total(newest)
  {
    var latest := NewestRows(rows);
    out := AddUp(latest);
  }

  /** The first loop: the newest row of each key, keeping the earlier one of a tie. */
  method NewestRows(rows: seq<Row>) returns (latest: map<Key, Inbound>)
    ensures IsLatest(rows, latest)
  {
    latest := map[];
    for i := 0 to |rows|
      invariant IsLatest(rows[..i], latest)
    {
      ghost var before := latest;
      match rows[i] {
        case InboundRtp(r) =>
          var key := (r.ssrc, r.id);
          if !(key in latest && latest[key].timestamp >= r.timestamp) {
            latest := latest[key := r];
          }
        case OtherRow(_) =>
      }
      LatestSnoc(rows[..i], rows[i], before, latest);
      assert rows[..i] + [rows[i]] == rows[..i + 1];
    }
    assert rows[..|rows|] == rows;
  }

  /** The second loop: the map is walked in an order of its own choosing. */
  method AddUp(latest: map<Key, Inbound>) returns (out: VideoStreamStats)
    ensures out == Total(latest)
  {
    out := ZERO;
    var left := latest.Keys;
    assert latest - left == map[];
    while left != {}
      invariant left <= latest.Keys && out == Total(latest - left)
      decreases |left|
    {
      var k :| k in left;
      OneMore(latest, left, k);
      out := Merge(out, Reading(latest[k]));
      left := left - {k};
    }
    assert latest - {} == latest;
  }

  lemma OneMore(latest: map<Key, Inbound>, left: set<Key>, k: Key)
    requires k in left && left <= latest.Keys
    ensures Total(latest - (left - {k})) == Merge(Total(latest - left), Reading(latest[k]))
  {
    var more := latest - (left - {k});
    TotalAnyOrder(more, k);
    assert more - {k} == latest - left;
  }

  lemma LatestSnoc(rows: seq<Row>, x: Row, before: map<Key, Inbound>, after: map<Key, Inbound>)
    requires IsLatest(rows, before)
    requires after == if x.InboundRtp? && !(x.r.KeyOf() in before && before[x.r.KeyOf()].timestamp >= x.r.timestamp)
                      then before[x.r.KeyOf() := x.r] else before
    ensures IsLatest(rows + [x], after)
  {
    var all := rows + [x];
    forall k ensures k in after <==> HasKey(all, k) {
      OneMoreKey(rows, x, k);
    }
    forall k | k in after ensures after[k].KeyOf() == k && IsNewest(all, after[k]) {
      if x.InboundRtp? && k == x.r.KeyOf() && !(k in before && before[k].timestamp >= x.r.timestamp) {
        NewRowIsNewest(rows, x.r, before);
      } else {
        StaysNewest(rows, x, before[k]);
      }
    }
  }

  lemma OneMoreKey(rows: seq<Row>, x: Row, k: Key)
    ensures HasKey(rows + [x], k) <==> HasKey(rows, k) || (x.InboundRtp? && x.r.KeyOf() == k)
  {
    var all := rows + [x];
    if HasKey(rows, k) {
      var i :| 0 <= i < |rows| && rows[i].InboundRtp? && rows[i].r.KeyOf() == k;
      assert all[i] == rows[i];
    }
    assert all[|rows|] == x;
  }

  lemma StaysNewest(rows: seq<Row>, x: Row, r: Inbound)
    requires IsNewest(rows, r) && (x.InboundRtp? && x.r.KeyOf() == r.KeyOf() ==> x.r.timestamp <= r.timestamp)
    ensures IsNewest(rows + [x], r)
  {
    var i :| 0 <= i < |rows| && rows[i] == InboundRtp(r)
      && forall j :: 0 <= j < |rows| && rows[j].InboundRtp? && rows[j].r.KeyOf() == r.KeyOf() ==>
           rows[j].r.timestamp <= r.timestamp && (j < i ==> rows[j].r.timestamp < r.timestamp);
    assert (rows + [x])[i] == InboundRtp(r);
  }

  lemma NewRowIsNewest(rows: seq<Row>, r: Inbound, before: map<Key, Inbound>)
    requires IsLatest(rows, before)
    requires !(r.KeyOf() in before && before[r.KeyOf()].timestamp >= r.timestamp)
    ensures IsNewest(rows + [InboundRtp(r)], r)
  {
    var all, k := rows + [InboundRtp(r)], r.KeyOf();
    forall j | 0 <= j < |rows| && rows[j].InboundRtp? && rows[j].r.KeyOf() == k
      ensures rows[j].r.timestamp < r.timestamp
    {
      assert HasKey(rows, k);
      assert IsNewest(rows, before[k]);
    }
    assert all[|rows|] == InboundRtp(r);
  }

  // ---- The order of the rows ----

  /** Rows of one key and one timestamp are the same row. */
  predicate AgesDecide(rows: seq<Row>) {
    forall i, j | 0 <= i < |rows| && 0 <= j < |rows| && rows[i].InboundRtp? && rows[j].InboundRtp? ::
      rows[i].r.KeyOf() == rows[j].r.KeyOf() && rows[i].r.timestamp == rows[j].r.timestamp ==> rows[i] == rows[j]
  }

  lemma NewestIsUnique(rows: seq<Row>, other: seq<Row>, x: Inbound, y: Inbound)
    requires forall r :: r in rows <==> r in other
    requires AgesDecide(rows) && IsNewest(rows, x) && IsNewest(other, y) && x.KeyOf() == y.KeyOf()
    ensures x == y
  {
    assert InboundRtp(x) in other && InboundRtp(y) in rows;
  }

  lemma SameKeys(rows: seq<Row>, other: seq<Row>, k: Key)
    requires forall r :: r in rows ==> r in other
    ensures HasKey(rows, k) ==> HasKey(other, k)
  {
    if HasKey(rows, k) {
      var i :| 0 <= i < |rows| && rows[i].InboundRtp? && rows[i].r.KeyOf() == k;
      assert rows[i] in other;
    }
  }

  lemma LatestIsUnique(rows: seq<Row>, other: seq<Row>, a: map<Key, Inbound>, b: map<Key, Inbound>)
    requires forall r :: r in rows <==> r in other
    requires AgesDecide(rows) && IsLatest(rows, a) && IsLatest(other, b)
    ensures a == b
  {
    forall k ensures k in a <==> k in b {
      SameKeys(rows, other, k);
      SameKeys(other, rows, k);
    }
    forall k | k in a ensures a[k] == b[k] {
      NewestIsUnique(rows, other, a[k], b[k]);
    }
  }

  /**
   Two tables with the same rows in any order, any number of times, fold to the same result as long as
   the timestamps tell the rows of one stream apart.
   */
  lemma FoldIgnoresRowOrder(rows: seq<Row>, other: seq<Row>, a: map<Key, Inbound>, b: map<Key, Inbound>)
    requires forall x :: x in rows <==> x in other
    requires AgesDecide(rows) && IsLatest(rows, a) && IsLatest(other, b)
    ensures Total(a) == Total(b)
  {
    LatestIsUnique(rows, other, a, b);
  }

  /** Two different rows of one stream with one timestamp: the earlier row wins, so the order shows. */
  lemma TiesFollowTheOrder(x: Inbound, y: Inbound, a: map<Key, Inbound>, b: map<Key, Inbound>)
    requires x.KeyOf() == y.KeyOf() && x.timestamp == y.timestamp && x != y
    requires IsLatest([InboundRtp(x), InboundRtp(y)], a) && IsLatest([InboundRtp(y), InboundRtp(x)], b)
    ensures a == map[x.KeyOf() := x] && b == map[x.KeyOf() := y]
  {
    FirstOfTie(x, y, a);
    FirstOfTie(y, x, b);
  }

  lemma FirstOfTie(x: Inbound, y: Inbound, a: map<Key, Inbound>)
    requires x.KeyOf() == y.KeyOf() && x.timestamp == y.timestamp && x != y
    requires IsLatest([InboundRtp(x), InboundRtp(y)], a)
    ensures a == map[x.KeyOf() := x]
  {
    var rows := [InboundRtp(x), InboundRtp(y)];
    var k := x.KeyOf();
    assert rows[0].InboundRtp? && rows[0].r.KeyOf() == k;
    assert k in a;
    assert IsNewest(rows, a[k]);
    assert forall c :: c in a ==> c == k;
  }
}
