/**
 Measuring how long a committed event takes to become visible at its consumers, without trusting database
 clocks: the producer's commit is bracketed by two hooks, the consumer's commit by two scans of a polling
 observer. All instants are readings of one monotone clock, in seconds.
 */
module EventFreshness {
  import opened Options

  datatype Key = Key(event: nat, consumer: nat)

  /** One poll: the database takes its snapshot some time between the two readings of the clock. */
  datatype Scan = Scan(started: real, snapshot: real, seen: real, rows: seq<Key>)

  datatype Observation = Observation(previousScan: real, seenAt: real)

  /** The instants at which receipts really became visible, and what each scan therefore returns. */
  ghost predicate Polls(epoch: real, scans: seq<Scan>, visible: map<Key, real>) {
    && (forall i :: 0 <= i < |scans| ==> scans[i].started <= scans[i].snapshot <= scans[i].seen)
    && (forall i, j :: 0 <= i < j < |scans| ==> scans[i].seen <= scans[j].started)
    && (forall i :: 0 <= i < |scans| ==> epoch <= scans[i].started)
    && (forall i, k :: 0 <= i < |scans| ==> (k in scans[i].rows <==> k in visible && visible[k] <= scans[i].snapshot))
  }

  /** The receipt appeared after the scan before last began, unless there was none, and before the last one ended. */
  predicate Caught(epoch: real, seen: Observation, visible: real) {
    (seen.previousScan == epoch || seen.previousScan <= visible) && visible <= seen.seenAt
  }

  method Note(observed: map<Key, Observation>, rows: seq<Key>, seen: Observation) returns (observed': map<Key, Observation>)
    ensures forall k :: k in observed' <==> k in observed || k in rows
    ensures forall k :: k in observed' ==> observed'[k] == if k in observed then observed[k] else seen
  {
    observed' := observed;
    for r := 0 to |rows|
      invariant forall k :: k in observed' <==> k in observed || k in rows[..r]
      invariant forall k :: k in observed' ==> observed'[k] == if k in observed then observed[k] else seen
    {
      assert rows[..r + 1] == rows[..r] + [rows[r]];
      if rows[r] !in observed' {
        observed' := observed'[rows[r] := seen];
      }
    }
    assert rows[..|rows|] == rows;
  }

  /** Every receipt a scan returned is kept with the readings around the first scan that returned it. */
  method Observe(epoch: real, scans: seq<Scan>, ghost visible: map<Key, real>) returns (observed: map<Key, Observation>)
    requires Polls(epoch, scans, visible)
    ensures forall k :: k in observed <==> k in visible && exists i :: 0 <= i < |scans| && visible[k] <= scans[i].snapshot
    ensures forall k :: k in observed ==> k in visible && Caught(epoch, observed[k], visible[k])
  {
    observed := map[];
    var previousScan := epoch;
    for i := 0 to |scans|
      invariant previousScan == if i == 0 then epoch else scans[i - 1].started
      invariant forall k :: k in observed <==> i > 0 && k in scans[i - 1].rows
      invariant forall k :: k in observed ==> k in visible && Caught(epoch, observed[k], visible[k])
    {
      var scan := scans[i];
      ghost var before := observed;
      var seen := Observation(previousScan, scan.seen);
      observed := Note(observed, scan.rows, seen);
      forall k | k in observed
        ensures k in scan.rows && Caught(epoch, observed[k], visible[k])
      {
        if k in before {
          assert k in scans[i - 1].rows;
        } else if i > 0 {
          assert k !in scans[i - 1].rows;
        }
      }
      previousScan := scan.started;
    }
    forall k | k in visible && exists i :: 0 <= i < |scans| && visible[k] <= scans[i].snapshot
      ensures k in observed
    {
      var i :| 0 <= i < |scans| && visible[k] <= scans[i].snapshot;
      assert scans[i].snapshot <= scans[|scans| - 1].snapshot;
    }
  }

  datatype Bounds = Bounds(upperMs: real, lowerMs: real, commitBracketMs: real, observationBracketMs: real)

  function LatencyBounds(beforeCommit: real, afterCommit: real, previousScan: real, seenAt: real): Bounds {
    Bounds((seenAt - beforeCommit) * 1000.0,
           (if previousScan - afterCommit < 0.0 then 0.0 else previousScan - afterCommit) * 1000.0,
           (afterCommit - beforeCommit) * 1000.0,
           (seenAt - previousScan) * 1000.0)
  }

  /** A producer's commit at `commit` between its two hooks, during the run, and before its receipt. */
  predicate Hooked(epoch: real, before: real, commit: real, after: real, visible: real) {
    epoch <= before <= commit <= after && commit <= visible
  }

  /** The true latency lies between the bounds, which are never wider than the two brackets together. */
  lemma LatencyIsBracketed(epoch: real, before: real, commit: real, after: real, visible: real, seen: Observation)
    requires Hooked(epoch, before, commit, after, visible) && Caught(epoch, seen, visible)
    ensures var b := LatencyBounds(before, after, seen.previousScan, seen.seenAt);
            && b.lowerMs <= (visible - commit) * 1000.0 <= b.upperMs
            && b.upperMs - b.lowerMs <= b.commitBracketMs + b.observationBracketMs
            && (b.upperMs - b.lowerMs == b.commitBracketMs + b.observationBracketMs <==> after <= seen.previousScan)
  {
  }

  // ---------------------------------------------------------------------------
  // The reported distribution

  function Insert(x: real, s: seq<real>): seq<real> {
    if s == [] || x <= s[0] then [x] + s else [s[0]] + Insert(x, s[1..])
  }

  function Sorted(s: seq<real>): seq<real> {
    if s == [] then [] else Insert(s[0], Sorted(s[1..]))
  }

  predicate Ascending(s: seq<real>) {
    forall i, j :: 0 <= i < j < |s| ==> s[i] <= s[j]
  }

  predicate Below(a: seq<real>, b: seq<real>) {
    |a| == |b| && forall i :: 0 <= i < |a| ==> a[i] <= b[i]
  }

  lemma {:induction false} InsertSorts(x: real, s: seq<real>)
    requires Ascending(s)
    ensures Ascending(Insert(x, s)) && |Insert(x, s)| == |s| + 1
    ensures Insert(x, s)[0] == if s == [] || x <= s[0] then x else s[0]
  {
    if s != [] && x > s[0] {
      var rest := Insert(x, s[1..]);
      InsertSorts(x, s[1..]);
      assert rest[0] >= s[0];
      assert Insert(x, s) == [s[0]] + rest;
    }
  }

  lemma {:induction false} InsertKeepsValues(x: real, s: seq<real>)
    ensures multiset(Insert(x, s)) == multiset(s) + multiset{x}
  {
    if s != [] && x > s[0] {
      InsertKeepsValues(x, s[1..]);
      assert s == [s[0]] + s[1..];
    }
  }

  lemma {:induction false} SortedSorts(s: seq<real>)
    ensures Ascending(Sorted(s)) && multiset(Sorted(s)) == multiset(s) && |Sorted(s)| == |s|
  {
    if s != [] {
      SortedSorts(s[1..]);
      InsertSorts(s[0], Sorted(s[1..]));
      InsertKeepsValues(s[0], Sorted(s[1..]));
      assert s == [s[0]] + s[1..];
    }
  }

  lemma {:induction false} InsertKeepsBelow(x: real, y: real, s: seq<real>, t: seq<real>)
    requires x <= y && Below(s, t) && Ascending(s) && Ascending(t)
    ensures Below(Insert(x, s), Insert(y, t))
    decreases |s|
  {
    if s != [] && (x > s[0] || y > t[0]) {
      assert Below(s[1..], t[1..]) && Ascending(s[1..]) && Ascending(t[1..]);
      hide Ascending;
      if x <= s[0] {
        InsertKeepsBelow(s[0], y, s[1..], t[1..]);
        InsertFirst(s[0], s[1..]);
        assert s == [s[0]] + s[1..];
      } else if y <= t[0] {
        InsertKeepsBelow(x, t[0], s[1..], t[1..]);
        InsertFirst(t[0], t[1..]);
        assert t == [t[0]] + t[1..];
      } else {
        InsertKeepsBelow(x, y, s[1..], t[1..]);
      }
    }
  }

  lemma InsertFirst(x: real, s: seq<real>)
    requires forall i :: 0 <= i < |s| ==> x <= s[i]
    ensures Insert(x, s) == [x] + s
  {
  }

  /** Order statistics are monotone: raising every value raises every rank. */
  lemma {:induction false} SortedKeepsBelow(a: seq<real>, b: seq<real>)
    requires Below(a, b)
    ensures Below(Sorted(a), Sorted(b))
  {
    if a != [] {
      SortedKeepsBelow(a[1..], b[1..]);
      SortedSorts(a[1..]);
      SortedSorts(b[1..]);
      InsertKeepsBelow(a[0], b[0], Sorted(a[1..]), Sorted(b[1..]));
    }
  }

  function Over(limit: real, s: seq<real>): nat {
    if s == [] then 0 else (if s[0] > limit then 1 else 0) + Over(limit, s[1..])
  }

  lemma {:induction false} OverKeepsBelow(limit: real, a: seq<real>, b: seq<real>)
    requires Below(a, b)
    ensures Over(limit, a) <= Over(limit, b)
  {
    if a != [] {
      OverKeepsBelow(limit, a[1..], b[1..]);
    }
  }

  datatype Distribution = Distribution(count: nat, p50: Option<real>, p95: Option<real>, p99: Option<real>, max: Option<real>, over5000: nat)

  /** Nearest rank: the position of the given percentage among n ordered values. */
  function Rank(n: nat, percent: nat): (k: nat)
    requires n > 0 && 0 < percent <= 100
    ensures k < n && k * 100 < n * percent <= (k + 1) * 100
  {
    (n * percent + 99) / 100 - 1
  }

  function NearestRank(ordered: seq<real>, percent: nat): Option<real>
    requires 0 < percent <= 100
  {
    if ordered == [] then None else Some(ordered[Rank(|ordered|, percent)])
  }

  function Distributed(values: seq<real>): Distribution {
    var ordered := Sorted(values);
    Distribution(|ordered|, NearestRank(ordered, 50), NearestRank(ordered, 95), NearestRank(ordered, 99),
                 NearestRank(ordered, 100), Over(5000.0, ordered))
  }

  predicate AtMost(a: Option<real>, b: Option<real>) {
    a.Some? == b.Some? && (a.Some? ==> a.value <= b.value)
  }

  predicate NoLater(a: Distribution, b: Distribution) {
    a.count == b.count && AtMost(a.p50, b.p50) && AtMost(a.p95, b.p95) && AtMost(a.p99, b.p99) && AtMost(a.max, b.max) && a.over5000 <= b.over5000
  }

  lemma DistributedKeepsBelow(a: seq<real>, b: seq<real>)
    requires Below(a, b)
    ensures NoLater(Distributed(a), Distributed(b))
  {
    hide Sorted;
    SortedKeepsBelow(a, b);
    OverKeepsBelow(5000.0, Sorted(a), Sorted(b));
  }

  // ---------------------------------------------------------------------------
  // What the reported numbers are

  /** How many values are at most v, and how many are below it. */
  function AtMostCount(s: seq<real>, v: real): nat {
    if s == [] then 0 else (if s[0] <= v then 1 else 0) + AtMostCount(s[1..], v)
  }

  function BelowCount(s: seq<real>, v: real): nat {
    if s == [] then 0 else (if s[0] < v then 1 else 0) + BelowCount(s[1..], v)
  }

  lemma {:induction false} InsertCounts(x: real, s: seq<real>, v: real)
    ensures AtMostCount(Insert(x, s), v) == AtMostCount(s, v) + (if x <= v then 1 else 0)
    ensures BelowCount(Insert(x, s), v) == BelowCount(s, v) + (if x < v then 1 else 0)
    ensures Over(v, Insert(x, s)) == Over(v, s) + (if x > v then 1 else 0)
  {
    if s != [] && x > s[0] {
      InsertCounts(x, s[1..], v);
      assert Insert(x, s)[1..] == Insert(x, s[1..]);
    } else {
      assert Insert(x, s)[1..] == s;
    }
  }

  lemma {:induction false} SortedCounts(s: seq<real>, v: real)
    ensures AtMostCount(Sorted(s), v) == AtMostCount(s, v) && BelowCount(Sorted(s), v) == BelowCount(s, v) && Over(v, Sorted(s)) == Over(v, s)
  {
    if s != [] {
      SortedCounts(s[1..], v);
      InsertCounts(s[0], Sorted(s[1..]), v);
    }
  }

  /** In ascending order the value at place k has k + 1 values up to it and at most k below it. */
  lemma {:induction false} PlaceCounts(s: seq<real>, k: nat)
    requires Ascending(s) && k < |s|
    ensures AtMostCount(s, s[k]) >= k + 1 && BelowCount(s, s[k]) <= k
  {
    if k > 0 {
      assert Ascending(s[1..]) && s[1..][k - 1] == s[k];
      PlaceCounts(s[1..], k - 1);
    } else {
      NothingBelow(s, s[0]);
    }
  }

  lemma {:induction false} NothingBelow(s: seq<real>, v: real)
    requires forall i :: 0 <= i < |s| ==> v <= s[i]
    ensures BelowCount(s, v) == 0
  {
    if s != [] { NothingBelow(s[1..], v); }
  }

  /** v is one of the values, at least that percentage of them are up to it, and less than that percentage are below it. */
  predicate IsPercentile(values: seq<real>, percent: nat, v: Option<real>) {
    if values == [] then v.None? else
      v.Some? && v.value in values && AtMostCount(values, v.value) * 100 >= |values| * percent && BelowCount(values, v.value) * 100 < |values| * percent
  }

  lemma NearestRankIsPercentile(values: seq<real>, percent: nat)
    requires 0 < percent <= 100
    ensures IsPercentile(values, percent, NearestRank(Sorted(values), percent))
  {
    hide Sorted, AtMostCount, BelowCount;
    SortedSorts(values);
    if values != [] {
      var k := Rank(|values|, percent);
      var v := Sorted(values)[k];
      PlaceCounts(Sorted(values), k);
      SortedCounts(values, v);
      assert v in multiset(Sorted(values));
      assert v in values;
    }
  }

  /** The report: percentiles by nearest rank, the largest value, and how many values are over five seconds; nothing is made up for an empty list. */
  lemma DistributedIs(values: seq<real>)
    ensures var d := Distributed(values);
            && d.count == |values| && IsPercentile(values, 50, d.p50) && IsPercentile(values, 95, d.p95) && IsPercentile(values, 99, d.p99)
            && (d.max.Some? <==> values != []) && (d.max.Some? ==> d.max.value in values && forall i :: 0 <= i < |values| ==> values[i] <= d.max.value)
            && d.over5000 == Over(5000.0, values)
  {
    hide Sorted, IsPercentile;
    SortedSorts(values);
    SortedCounts(values, 5000.0);
    NearestRankIsPercentile(values, 50);
    NearestRankIsPercentile(values, 95);
    NearestRankIsPercentile(values, 99);
    if values != [] { LastIsLargest(values); }
  }

  lemma LastIsLargest(values: seq<real>)
    requires values != []
    ensures NearestRank(Sorted(values), 100).Some?
    ensures var v := NearestRank(Sorted(values), 100).value; v in values && forall i :: 0 <= i < |values| ==> values[i] <= v
  {
    hide Sorted;
    SortedSorts(values);
    var ordered := Sorted(values);
    var v := ordered[|ordered| - 1];
    assert Rank(|ordered|, 100) == |ordered| - 1;
    assert v in multiset(ordered) && v in values;
    forall i | 0 <= i < |values|
      ensures values[i] <= v
    {
      assert values[i] in multiset(values) && values[i] in multiset(ordered);
      var j :| 0 <= j < |ordered| && ordered[j] == values[i];
    }
  }

  /** A delivery whose receipt was observed, with the true instants nobody can read. */
  datatype Sample = Sample(before: real, commit: real, after: real, visible: real, seen: Observation)

  ghost predicate Measured(epoch: real, samples: seq<Sample>) {
    forall i :: 0 <= i < |samples| ==>
      && Hooked(epoch, samples[i].before, samples[i].commit, samples[i].after, samples[i].visible)
      && Caught(epoch, samples[i].seen, samples[i].visible)
  }

  function BoundsOf(s: Sample): Bounds {
    LatencyBounds(s.before, s.after, s.seen.previousScan, s.seen.seenAt)
  }

  function Uppers(samples: seq<Sample>): seq<real> {
    seq(|samples|, i requires 0 <= i < |samples| => BoundsOf(samples[i]).upperMs)
  }

  function Lowers(samples: seq<Sample>): seq<real> {
    seq(|samples|, i requires 0 <= i < |samples| => BoundsOf(samples[i]).lowerMs)
  }

  function Latencies(samples: seq<Sample>): seq<real> {
    seq(|samples|, i requires 0 <= i < |samples| => (samples[i].visible - samples[i].commit) * 1000.0)
  }

  /** Every reported percentile, maximum and count over five seconds brackets that of the true latencies. */
  lemma DistributionIsBracketed(epoch: real, samples: seq<Sample>)
    requires Measured(epoch, samples)
    ensures NoLater(Distributed(Lowers(samples)), Distributed(Latencies(samples)))
    ensures NoLater(Distributed(Latencies(samples)), Distributed(Uppers(samples)))
  {
    hide Distributed;
    forall i | 0 <= i < |samples|
      ensures Lowers(samples)[i] <= Latencies(samples)[i] <= Uppers(samples)[i]
    {
      var s := samples[i];
      LatencyIsBracketed(epoch, s.before, s.commit, s.after, s.visible, s.seen);
    }
    DistributedKeepsBelow(Lowers(samples), Latencies(samples));
    DistributedKeepsBelow(Latencies(samples), Uppers(samples));
  }
}
