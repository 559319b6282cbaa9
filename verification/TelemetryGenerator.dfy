/**
 The paced telemetry generator. Clock readings, the network's replies and the JSON texts of records come
 from outside: `Lag` says how much longer than needed each stretch of an iteration took, `replies` whether
 the n-th request was acknowledged, and `Texts` what the records of operation i look like.
 */
module TelemetryGenerator {
  import opened Options
  import opened TelemetryBatches

  // ---------------------------------------------------------------------------
  // Cumulative metrics

  /** Milliseconds. */
  const Bounds: seq<int> := [5, 10, 25, 50, 100]

  function DurationMs(index: nat): int {
    if index % 2 != 0 then 10 else 25
  }

  datatype Histogram = Histogram(count: int, sumMs: int, buckets: seq<int>)

  /** The closed form the generator sends. */
  function Cumulative(count: nat): Histogram {
    var short, long := (count + 1) / 2, count / 2;
    Histogram(count, short * 10 + long * 25, [0, short, long, 0, 0, 0])
  }

  /** An explicit-bounds histogram puts a value in the first bucket whose inclusive upper bound reaches it. */
  function Bucket(bounds: seq<int>, value: int): (k: nat)
    ensures k <= |bounds|
    ensures forall i :: 0 <= i < k ==> bounds[i] < value
    ensures k < |bounds| ==> value <= bounds[k]
  {
    if bounds == [] || value <= bounds[0] then 0 else 1 + Bucket(bounds[1..], value)
  }

  /** One more value, in bucket k. */
  function Counting(h: Histogram, k: nat, value: int): Histogram
    requires k < |h.buckets|
  {
    Histogram(h.count + 1, h.sumMs + value, h.buckets[k := h.buckets[k] + 1])
  }

  /** Every operation 1..n observed one at a time. */
  function Observed(n: nat): (h: Histogram)
    ensures |h.buckets| == |Bounds| + 1
  {
    if n == 0 then Histogram(0, 0, [0, 0, 0, 0, 0, 0])
    else Counting(Observed(n - 1), Bucket(Bounds, DurationMs(n)), DurationMs(n))
  }

  lemma DurationBucket(n: nat)
    ensures Bucket(Bounds, DurationMs(n)) == if n % 2 != 0 then 1 else 2
  {
    var k := Bucket(Bounds, DurationMs(n));
    assert Bounds[0] == 5 && Bounds[1] == 10 && Bounds[2] == 25;
  }

  lemma OneMoreOperation(n: nat)
    requires n > 0
    ensures Cumulative(n) == Counting(Cumulative(n - 1), if n % 2 != 0 then 1 else 2, DurationMs(n))
  {
    if n % 2 != 0 {
      assert n / 2 == (n - 1) / 2 && (n + 1) / 2 == n / 2 + 1;
    } else {
      assert n / 2 == (n - 1) / 2 + 1 && (n + 1) / 2 == n / 2;
    }
  }

  lemma {:induction false} ClosedFormIsFold(n: nat)
    ensures Cumulative(n) == Observed(n)
  {
    if n > 0 {
      hide Bucket, Counting, Cumulative, DurationMs;
      ClosedFormIsFold(n - 1);
      DurationBucket(n);
      OneMoreOperation(n);
    }
  }

  // ---------------------------------------------------------------------------
  // Exports

  /** Each export of metrics has its own count, so its texts, times included, are a function of the histogram. */
  datatype Texts = Texts(spans: nat -> (string, string), log: nat -> string, metrics: Histogram -> seq<string>)

  function SpansUpTo(texts: Texts, n: nat): seq<string> {
    if n == 0 then [] else SpansUpTo(texts, n - 1) + [texts.spans(n).0, texts.spans(n).1]
  }

  function LogsUpTo(texts: Texts, n: nat): seq<string> {
    if n == 0 then [] else LogsUpTo(texts, n - 1) + [texts.log(n)]
  }

  /** A request that went out: the records in its body and whether it was acknowledged. */
  datatype Request = Request(signal: Signal, batch: seq<string>, body: string, acknowledged: bool)

  /** Everything sent for one signal, in order. */
  function Sent(exports: seq<Request>, signal: Signal): seq<string> {
    if exports == [] then [] else
      Sent(exports[..|exports| - 1], signal) + (if exports[|exports| - 1].signal == signal then exports[|exports| - 1].batch else [])
  }

  function Acknowledged(exports: seq<Request>): nat {
    if exports == [] then 0 else
      Acknowledged(exports[..|exports| - 1]) + (if exports[|exports| - 1].acknowledged then 1 else 0)
  }

  /** Every body is the encoding of its batch and within the receiver's limit. */
  predicate WellFormed(exports: seq<Request>, canary: bool) {
    forall i :: 0 <= i < |exports| ==> exports[i].body == Payload(exports[i].signal, exports[i].batch, canary) && |exports[i].body| <= MaxRequest
  }

  lemma SentMore(exports: seq<Request>, e: Request)
    ensures forall signal :: Sent(exports + [e], signal) == Sent(exports, signal) + (if e.signal == signal then e.batch else [])
    ensures Acknowledged(exports + [e]) == Acknowledged(exports) + (if e.acknowledged then 1 else 0)
  {
    assert (exports + [e])[..|exports + [e]| - 1] == exports;
  }

  /** Between two logs of requests, exactly these records were sent, all for one signal. */
  ghost predicate Added(before: seq<Request>, after: seq<Request>, signal: Signal, records: seq<string>) {
    forall s :: Sent(after, s) == Sent(before, s) + if s == signal then records else []
  }

  lemma AddedMore(before: seq<Request>, middle: seq<Request>, after: seq<Request>, signal: Signal, first: seq<string>, second: seq<string>)
    requires Added(before, middle, signal, first) && Added(middle, after, signal, second)
    ensures Added(before, after, signal, first + second)
  {
    hide Sent;
    forall s
      ensures Sent(after, s) == Sent(before, s) + if s == signal then first + second else []
    {
      assert Sent(middle, s) == Sent(before, s) + if s == signal then first else [];
    }
  }

  lemma AddedNothing(exports: seq<Request>, signal: Signal)
    ensures Added(exports, exports, signal, [])
  {
  }

  function MetricsAt(texts: Texts, flushes: seq<nat>): seq<string> {
    if flushes == [] then [] else MetricsAt(texts, flushes[..|flushes| - 1]) + texts.metrics(Cumulative(flushes[|flushes| - 1]))
  }

  lemma MetricsMore(texts: Texts, flushes: seq<nat>, n: nat)
    ensures MetricsAt(texts, flushes + [n]) == MetricsAt(texts, flushes) + texts.metrics(Cumulative(n))
  {
    assert (flushes + [n])[..|flushes + [n]| - 1] == flushes;
  }

  /** Every record of the operations up to n, and of the metrics at these counts, is small enough to be sent on its own. */
  predicate Sendable(texts: Texts, canary: bool, n: nat, flushes: seq<nat>) {
    && AloneFits(Traces, SpansUpTo(texts, n), canary) && AloneFits(Logs, LogsUpTo(texts, n), canary)
    && forall i :: 0 <= i < |flushes| ==> AloneFits(Metrics, texts.metrics(Cumulative(flushes[i])), canary)
  }

  lemma BothFit(signal: Signal, canary: bool, a: seq<string>, b: seq<string>)
    ensures AloneFits(signal, a + b, canary) <==> AloneFits(signal, a, canary) && AloneFits(signal, b, canary)
  {
    hide Fits;
    if AloneFits(signal, a + b, canary) {
      assert forall k :: 0 <= k < |a| ==> (a + b)[k] == a[k];
      assert forall k :: 0 <= k < |b| ==> (a + b)[|a| + k] == b[k];
    }
  }

  lemma {:induction false} PrefixFits(texts: Texts, canary: bool, m: nat, n: nat)
    requires m <= n && AloneFits(Traces, SpansUpTo(texts, n), canary) && AloneFits(Logs, LogsUpTo(texts, n), canary)
    ensures AloneFits(Traces, SpansUpTo(texts, m), canary) && AloneFits(Logs, LogsUpTo(texts, m), canary)
  {
    hide AloneFits;
    if m < n {
      BothFit(Traces, canary, SpansUpTo(texts, n - 1), [texts.spans(n).0, texts.spans(n).1]);
      BothFit(Logs, canary, LogsUpTo(texts, n - 1), [texts.log(n)]);
      PrefixFits(texts, canary, m, n - 1);
    }
  }

  /** The counters and buffers that an export updates. */
  class Run {
    const texts: Texts
    const canary: bool
    const replies: nat -> bool
    var traces: seq<string>
    var logs: seq<string>
    var generated: nat
    var exportRequests: nat
    var acknowledged: nat
    var failed: nat
    ghost var exports: seq<Request>
    ghost var flushes: seq<nat>

    constructor (texts: Texts, canary: bool, replies: nat -> bool)
      ensures this.texts == texts && this.canary == canary && this.replies == replies
      ensures generated == 0 && flushes == [] && Valid() && Complete()
    {
      this.texts, this.canary, this.replies := texts, canary, replies;
      traces, logs, generated, exportRequests, acknowledged, failed, exports, flushes := [], [], 0, 0, 0, 0, [], [];
    }

    ghost predicate Counted()
      reads this`exportRequests, this`acknowledged, this`failed, this`exports
    {
      && exportRequests == |exports| == acknowledged + failed && acknowledged == Acknowledged(exports)
      && WellFormed(exports, canary)
    }

    /** Sent and buffered records together are those of operations 1..generated, in order. */
    ghost predicate Valid()
      reads this
    {
      && Counted()
      && Sent(exports, Traces) + traces == SpansUpTo(texts, generated)
      && Sent(exports, Logs) + logs == LogsUpTo(texts, generated)
      && Sent(exports, Metrics) == MetricsAt(texts, flushes)
      && (forall i, j :: 0 <= i < j < |flushes| ==> flushes[i] < flushes[j])
      && (forall i :: 0 <= i < |flushes| ==> 0 < flushes[i] <= generated)
      && AloneFits(Traces, Sent(exports, Traces), canary) && AloneFits(Logs, Sent(exports, Logs), canary)
      && (forall i :: 0 <= i < |flushes| ==> AloneFits(Metrics, texts.metrics(Cumulative(flushes[i])), canary))
      && (traces == [] <==> logs == [])
      && (logs == [] <==> generated == 0 || (flushes != [] && flushes[|flushes| - 1] == generated))
    }

    /** Nothing is waiting to be sent. */
    ghost predicate Complete()
      reads this
    {
      traces == [] && logs == []
    }

    /** One request; a failed or uncertain one is counted and not repeated. */
    method Send(signal: Signal, ghost batch: seq<string>, body: string)
      requires Counted() && body == Payload(signal, batch, canary) && |body| <= MaxRequest
      modifies this`exportRequests, this`acknowledged, this`failed, this`exports
      ensures Counted() && Added(old(exports), exports, signal, batch)
    {
      hide Payload, Sent, Acknowledged;
      var reply := replies(exportRequests);
      ghost var e := Request(signal, batch, body, reply);
      SentMore(exports, e);
      exports := exports + [e];
      exportRequests := exportRequests + 1;
      if reply { acknowledged := acknowledged + 1; } else { failed := failed + 1; }
    }

    method Export(signal: Signal, records: seq<string>) returns (ok: bool)
      requires Counted()
      modifies this`exportRequests, this`acknowledged, this`failed, this`exports
      ensures Counted()
      ensures ok <==> AloneFits(signal, records, canary)
      ensures Added(old(exports), exports, signal, if ok then records else [])
    {
      hide Payload, Flat, AloneFits, Sent, Counted, Added, Minimal;
      var bodies, batches := Encode(signal, records, canary);
      ok := bodies.Some?;
      AddedNothing(exports, signal);
      if ok {
        assert batches[..0] == [];
        FlatNothing();
        for i := 0 to |bodies.value|
          invariant Counted() && Added(old(exports), exports, signal, Flat(batches[..i]))
        {
          assert batches[..i + 1] == batches[..i] + [batches[i]];
          FlatAdd(batches[..i], batches[i]);
          ghost var middle := exports;
          Send(signal, batches[i], bodies.value[i]);
          AddedMore(old(exports), middle, exports, signal, Flat(batches[..i]), batches[i]);
        }
        assert batches[..|batches|] == batches;
      }
    }

    /** Sends the buffered traces and logs and the metrics of everything generated so far. */
    method Flush() returns (ok: bool)
      requires Valid() && logs != []
      modifies this
      ensures generated == old(generated)
      ensures ok <==> Sendable(texts, canary, generated, old(flushes) + [generated])
      ensures ok ==> Valid() && Complete() && flushes == old(flushes) + [generated]
    {
      hide Payload, Flat, AloneFits, Sent, Acknowledged, SpansUpTo, LogsUpTo, MetricsAt, WellFormed, Cumulative, Counted;
      BothFit(Traces, canary, Sent(exports, Traces), traces);
      BothFit(Logs, canary, Sent(exports, Logs), logs);
      ghost var attempted := flushes + [generated];
      AttemptFits(attempted);
      ok := Export(Traces, traces);
      if !ok { return; }
      ok := Export(Logs, logs);
      if !ok { return; }
      ok := Export(Metrics, texts.metrics(Cumulative(generated)));
      if !ok { return; }
      MetricsMore(texts, flushes, generated);
      assert Sent(exports, Traces) == SpansUpTo(texts, generated) && Sent(exports, Logs) == LogsUpTo(texts, generated);
      flushes := attempted;
      traces, logs := [], [];
      assert Sent(exports, Traces) + [] == Sent(exports, Traces) && Sent(exports, Logs) + [] == Sent(exports, Logs);
    }

    /** Only the newest metrics are in question. */
    lemma AttemptFits(attempted: seq<nat>)
      requires Valid() && attempted == flushes + [generated]
      ensures (forall i :: 0 <= i < |attempted| ==> AloneFits(Metrics, texts.metrics(Cumulative(attempted[i])), canary))
         <==> AloneFits(Metrics, texts.metrics(Cumulative(generated)), canary)
      ensures logs != [] ==> (forall i, j :: 0 <= i < j < |attempted| ==> attempted[i] < attempted[j])
    {
      hide AloneFits, Cumulative, Counted, Sent, SpansUpTo, LogsUpTo, MetricsAt;
      assert attempted[|flushes|] == generated;
    }

    /** What is buffered belongs to operations after the last export. */
    lemma BufferMeans()
      requires Valid()
      ensures traces == [] <==> logs == []
      ensures logs == [] <==> generated == 0 || (flushes != [] && flushes[|flushes| - 1] == generated)
    {
    }

    lemma CompleteMeans()
      requires Valid() && Complete()
      ensures Sendable(texts, canary, generated, flushes) && WellFormed(exports, canary)
      ensures Sent(exports, Traces) == SpansUpTo(texts, generated) && Sent(exports, Logs) == LogsUpTo(texts, generated)
      ensures Sent(exports, Metrics) == MetricsAt(texts, flushes)
      ensures exportRequests == |exports| == acknowledged + failed && acknowledged == Acknowledged(exports)
    {
      hide AloneFits, Sent, SpansUpTo, LogsUpTo, MetricsAt, Cumulative, Acknowledged, WellFormed;
      assert Sent(exports, Traces) + traces == Sent(exports, Traces) && Sent(exports, Logs) + logs == Sent(exports, Logs);
    }

    /** Operation `generated + 1` joins the buffers. */
    method Add()
      requires Valid()
      modifies this`traces, this`logs, this`generated
      ensures Valid() && generated == old(generated) + 1 && logs != []
    {
      hide Sent, Acknowledged, MetricsAt, WellFormed, AloneFits, Cumulative;
      var index := generated + 1;
      traces := traces + [texts.spans(index).0, texts.spans(index).1];
      logs := logs + [texts.log(index)];
      generated := index;
    }
  }

  // ---------------------------------------------------------------------------
  // Pacing

  type Elapsed = x: real | 0.0 <= x

  /** How long one iteration overslept, prepared records and exported, in seconds. */
  datatype Lag = Lag(sleep: Elapsed, work: Elapsed, flush: Elapsed)

  /** `dues[k]` and `nows[k]` are the scheduled and actual times of operation k + 1. */
  datatype Pace = Pace(dues: seq<real>, nows: seq<real>)

  ghost predicate Paced(pace: Pace, rate: nat, started: real)
    requires rate > 0
  {
    && |pace.dues| == |pace.nows| && (|pace.dues| > 0 ==> pace.dues[0] == started)
    && (forall k :: 0 <= k < |pace.dues| ==> pace.dues[k] <= pace.nows[k])
    && (forall k :: 0 < k < |pace.dues| ==> Follows(pace.dues[k - 1], pace.nows[k - 1], pace.dues[k], rate))
  }

  /** The next operation is due a full interval after the last was due, and not before the last happened. */
  predicate Follows(due: real, now: real, next: real, rate: nat)
    requires rate > 0
  {
    due + Interval(rate) <= next && now <= next
  }

  function Late(pace: Pace): nat
    requires |pace.dues| == |pace.nows|
    decreases |pace.dues|
  {
    if pace.dues == [] then 0 else
      var n := |pace.dues| - 1;
      Late(Pace(pace.dues[..n], pace.nows[..n])) + (if pace.nows[n] - pace.dues[n] > 0.05 then 1 else 0)
  }

  lemma LateMore(pace: Pace, due: real, now: real)
    requires |pace.dues| == |pace.nows|
    ensures Late(Pace(pace.dues + [due], pace.nows + [now])) == Late(pace) + (if now - due > 0.05 then 1 else 0)
  {
    var n := |pace.dues|;
    assert (pace.dues + [due])[..n] == pace.dues && (pace.nows + [now])[..n] == pace.nows;
  }

  /** What a run is given: `lags(k)` are the lags of operation k. */
  datatype Plan = Plan(rate: nat, duration: nat, started: real, lags: nat -> Lag) {
    function Operations(): nat { rate * duration }

    function End(): real { started + duration as real }
  }

  datatype Clocks = Clocks(clock: real, due: real, lastFlush: real)

  /** The clock when an operation happens: not before it is due. */
  function Woken(c: Clocks, lag: Lag): (now: real)
    ensures c.due <= now && c.clock <= now
  {
    (if c.clock < c.due then c.due else c.clock) + lag.sleep
  }

  predicate FlushDue(c: Clocks, now: real, last: bool) {
    now - c.lastFlush >= 1.0 || last
  }

  /** Never a catch-up burst after a slow export. */
  function Next(due: real, clock: real, rate: nat): (next: real)
    requires rate > 0
    ensures due + Interval(rate) <= next && clock <= next
  {
    if due + Interval(rate) < clock then clock else due + Interval(rate)
  }

  function Advanced(p: Plan, k: nat, c: Clocks): Clocks
    requires p.rate > 0
  {
    var now := Woken(c, p.lags(k + 1));
    var flush := FlushDue(c, now, k + 1 == p.Operations());
    var clock := now + p.lags(k + 1).work + (if flush then p.lags(k + 1).flush else 0.0);
    Clocks(clock, Next(c.due, clock, p.rate), if flush then clock else c.lastFlush)
  }

  /** The clocks after k operations. */
  function ClocksAt(p: Plan, k: nat): Clocks
    requires p.rate > 0
  {
    if k == 0 then Clocks(p.started, p.started, p.started) else Advanced(p, k - 1, ClocksAt(p, k - 1))
  }

  function NowAt(p: Plan, k: nat): real
    requires p.rate > 0
  {
    Woken(ClocksAt(p, k), p.lags(k + 1))
  }

  /** How many operations happen, k having happened already. */
  function Reached(p: Plan, k: nat): (n: nat)
    requires p.rate > 0 && k <= p.Operations()
    ensures k <= n <= p.Operations()
    decreases p.Operations() - k
  {
    if k == p.Operations() || NowAt(p, k) >= p.End() then k else Reached(p, k + 1)
  }

  function PaceOf(p: Plan, n: nat): (pace: Pace)
    requires p.rate > 0
    ensures |pace.dues| == |pace.nows| == n
  {
    Pace(seq(n, k requires 0 <= k < n => ClocksAt(p, k).due), seq(n, k requires 0 <= k < n => NowAt(p, k)))
  }

  /** The counts at which the loop exports. */
  function FlushCounts(p: Plan, n: nat): seq<nat>
    requires p.rate > 0
  {
    if n == 0 then [] else
      FlushCounts(p, n - 1) + (if FlushDue(ClocksAt(p, n - 1), NowAt(p, n - 1), n == p.Operations()) then [n] else [])
  }

  lemma Unfolded(p: Plan, k: nat)
    requires p.rate > 0 && k <= p.Operations()
    ensures ClocksAt(p, 0) == Clocks(p.started, p.started, p.started) && ClocksAt(p, k + 1) == Advanced(p, k, ClocksAt(p, k))
    ensures FlushCounts(p, 0) == []
    ensures FlushCounts(p, k + 1) == FlushCounts(p, k) + (if FlushDue(ClocksAt(p, k), NowAt(p, k), k + 1 == p.Operations()) then [k + 1] else [])
    ensures Reached(p, k) == if k == p.Operations() || NowAt(p, k) >= p.End() then k else Reached(p, k + 1)
  {
    hide Advanced, NowAt, FlushDue;
  }

  lemma FlushPointsAre(p: Plan, n: nat)
    requires p.rate > 0
    ensures var counts := FlushCounts(p, n);
            FlushPoints(p, n) == if n == 0 || (counts != [] && counts[|counts| - 1] == n) then counts else counts + [n]
  {
  }

  /** The same with the last export after the loop. */
  function FlushPoints(p: Plan, n: nat): seq<nat>
    requires p.rate > 0
  {
    var counts := FlushCounts(p, n);
    if n == 0 || (counts != [] && counts[|counts| - 1] == n) then counts else counts + [n]
  }

  datatype Report = Report(generated: nat, exportRequests: nat, acknowledged: nat, failed: nat, scheduleMisses: nat, complete: bool)

  /**
   Whatever the lags and replies, and whether or not the run is cut short: it fails exactly when some record
   it reaches is too large to be sent alone; otherwise what was sent is exactly the records of operations
   1..generated, in order, and the metrics at each export, the last of them those of every operation.
   */
  method Generate(p: Plan, texts: Texts, canary: bool, replies: nat -> bool)
    returns (report: Option<Report>, ghost exports: seq<Request>, ghost pace: Pace)
    requires p.rate > 0
    ensures report.Some? <==> Sendable(texts, canary, Reached(p, 0), FlushPoints(p, Reached(p, 0)))
    ensures report.Some? ==>
              && report.value.generated == Reached(p, 0)
              && Sent(exports, Traces) == SpansUpTo(texts, report.value.generated)
              && Sent(exports, Logs) == LogsUpTo(texts, report.value.generated)
              && Sent(exports, Metrics) == MetricsAt(texts, FlushPoints(p, report.value.generated))
              && (report.value.generated > 0 ==> EndsWith(Sent(exports, Metrics), texts.metrics(Observed(report.value.generated))))
              && WellFormed(exports, canary)
    ensures report.Some? ==>
              && report.value.exportRequests == |exports| == report.value.acknowledged + report.value.failed
              && report.value.acknowledged == Acknowledged(exports)
    ensures report.Some? ==> pace == PaceOf(p, report.value.generated) && Paced(pace, p.rate, p.started) && report.value.scheduleMisses == Late(pace)
    ensures report.Some? ==> (report.value.complete <==> report.value.generated == p.Operations() && Acknowledged(exports) == |exports| && Late(pace) == 0)
  {
    hide Payload, Sent, Acknowledged, SpansUpTo, LogsUpTo, MetricsAt, WellFormed, Late, Sendable, Paced, AloneFits, PaceOf, Cumulative, Run.Valid;
    hide ClocksAt, Reached, FlushCounts, FlushPoints, Observed, Interval, EndsWith;
    var run := new Run(texts, canary, replies);
    exports, pace := [], Pace([], []);
    var ok, misses := Loop(p, run);
    if !ok { return None, exports, pace; }
    run.BufferMeans();
    FlushPointsAre(p, run.generated);
    if run.traces != [] || run.logs != [] {
      ok := run.Flush();
      if !ok { return None, exports, pace; }
    }
    run.CompleteMeans();
    exports, pace := run.exports, PaceOf(p, run.generated);
    PlanIsPaced(p, run.generated);
    if run.generated > 0 { MetricsEnd(texts, run.flushes, run.generated); }
    report := Some(Report(run.generated, run.exportRequests, run.acknowledged, run.failed, misses,
                          run.generated == p.rate * p.duration && run.failed == 0 && misses == 0));
  }

  /** The paced loop: it ends when the plan says, or at an export that cannot be sent. */
  method Loop(p: Plan, run: Run) returns (ok: bool, misses: nat)
    requires p.rate > 0 && run.Valid() && run.generated == 0 && run.flushes == []
    modifies run
    ensures ok ==> run.Valid() && run.generated == Reached(p, 0) && run.flushes == FlushCounts(p, run.generated) && misses == Late(PaceOf(p, run.generated))
    ensures !ok ==> !Sendable(run.texts, run.canary, Reached(p, 0), FlushPoints(p, Reached(p, 0)))
  {
    hide Late, Sendable, PaceOf, Run.Valid, ClocksAt, Reached, FlushCounts, FlushPoints, Interval;
    var clock, due, lastFlush := p.started, p.started, p.started;
    misses := 0;
    LateNow(p, 0);
    Unfolded(p, 0);
    var index := 1;
    while index <= p.rate * p.duration
      invariant 1 <= index <= p.Operations() + 1
      invariant run.Valid() && run.generated == index - 1 && run.flushes == FlushCounts(p, index - 1)
      invariant Clocks(clock, due, lastFlush) == ClocksAt(p, index - 1) && Reached(p, 0) == Reached(p, index - 1)
      invariant misses == Late(PaceOf(p, index - 1))
    {
      Unfolded(p, index - 1);
      clock := (if clock < due then due else clock) + p.lags(index).sleep;
      var now := clock;
      if now >= p.started + p.duration as real { break; }
      if now - due > 0.05 { misses := misses + 1; }
      LateNow(p, index - 1);
      run.Add();
      clock := clock + p.lags(index).work;
      if now - lastFlush >= 1.0 || index == p.rate * p.duration {
        ok := run.Flush();
        if !ok {
          if Sendable(run.texts, run.canary, Reached(p, 0), FlushPoints(p, Reached(p, 0))) {
            EarlierUnsendable(p, run.texts, run.canary, index, Reached(p, 0));
          }
          return;
        }
        clock := clock + p.lags(index).flush;
        lastFlush := clock;
      }
      due := Next(due, clock, p.rate);
      index := index + 1;
    }
    Unfolded(p, index - 1);
    ok := true;
  }

  predicate EndsWith(s: seq<string>, end: seq<string>) {
    |end| <= |s| && s[|s| - |end|..] == end
  }

  lemma MetricsEnd(texts: Texts, flushes: seq<nat>, n: nat)
    requires flushes != [] && flushes[|flushes| - 1] == n
    ensures EndsWith(MetricsAt(texts, flushes), texts.metrics(Observed(n)))
  {
    hide Observed, Cumulative;
    assert flushes == flushes[..|flushes| - 1] + [n];
    MetricsMore(texts, flushes[..|flushes| - 1], n);
    ClosedFormIsFold(n);
  }

  lemma LateNow(p: Plan, k: nat)
    requires p.rate > 0
    ensures Late(PaceOf(p, 0)) == 0
    ensures Late(PaceOf(p, k + 1)) == Late(PaceOf(p, k)) + (if NowAt(p, k) - ClocksAt(p, k).due > 0.05 then 1 else 0)
  {
    hide NowAt, ClocksAt;
    var pace := PaceOf(p, k);
    LateMore(pace, ClocksAt(p, k).due, NowAt(p, k));
    assert PaceOf(p, k + 1).dues == pace.dues + [ClocksAt(p, k).due];
    assert PaceOf(p, k + 1).nows == pace.nows + [NowAt(p, k)];
  }

  /** Every run is paced. */
  lemma PlanIsPaced(p: Plan, n: nat)
    requires p.rate > 0
    ensures Paced(PaceOf(p, n), p.rate, p.started)
  {
    hide Interval;
    var pace := PaceOf(p, n);
    forall k | 0 < k < n
      ensures Follows(pace.dues[k - 1], pace.nows[k - 1], pace.dues[k], p.rate)
    {
      assert ClocksAt(p, k) == Advanced(p, k - 1, ClocksAt(p, k - 1));
    }
  }

  lemma {:induction false} FlushCountsGrow(p: Plan, m: nat, n: nat)
    requires p.rate > 0 && m <= n
    ensures FlushCounts(p, m) <= FlushCounts(p, n)
  {
    hide ClocksAt, NowAt, FlushDue;
    if m < n { FlushCountsGrow(p, m, n - 1); }
  }

  /** What cannot be sent after m operations cannot be sent at the end either. */
  lemma EarlierUnsendable(p: Plan, texts: Texts, canary: bool, m: nat, n: nat)
    requires p.rate > 0 && m <= n && Sendable(texts, canary, n, FlushPoints(p, n))
    ensures Sendable(texts, canary, m, FlushCounts(p, m))
  {
    hide AloneFits, FlushCounts, SpansUpTo, LogsUpTo, Cumulative;
    FlushCountsGrow(p, m, n);
    PrefixFits(texts, canary, m, n);
    var all, some := FlushPoints(p, n), FlushCounts(p, m);
    assert some <= all;
    forall i | 0 <= i < |some|
      ensures AloneFits(Metrics, texts.metrics(Cumulative(some[i])), canary)
    {
      assert some[i] == all[i];
    }
  }

  function Interval(rate: nat): (seconds: real)
    requires rate > 0
    ensures seconds > 0.0
  {
    1.0 / rate as real
  }

  /** The length of a number of intervals. */
  function Intervals(rate: nat, steps: nat): real
    requires rate > 0
  {
    steps as real * Interval(rate)
  }

  lemma IntervalsAre(rate: nat, steps: nat)
    requires rate > 0
    ensures Intervals(rate, 0) == 0.0 && Intervals(rate, 1) == Interval(rate)
    ensures Intervals(rate, steps + 1) == Intervals(rate, steps) + Interval(rate) && Intervals(rate, steps) >= 0.0
  {
    assert (steps + 1) as real * Interval(rate) == steps as real * Interval(rate) + Interval(rate);
  }

  /** Due times are at least a full interval apart. */
  lemma {:induction false} DueSpacing(pace: Pace, rate: nat, started: real, i: nat, j: nat)
    requires rate > 0 && Paced(pace, rate, started) && i <= j < |pace.dues|
    ensures pace.dues[j] - pace.dues[i] >= Intervals(rate, j - i)
    decreases j
  {
    hide Paced, Intervals, Interval;
    if i < j {
      DueSpacing(pace, rate, started, i, j - 1);
      PacedStep(pace, rate, started, j);
      IntervalsAre(rate, j - 1 - i);
    } else {
      IntervalsAre(rate, 0);
    }
  }

  lemma PacedStep(pace: Pace, rate: nat, started: real, j: nat)
    requires rate > 0 && Paced(pace, rate, started) && 0 < j < |pace.dues|
    ensures |pace.dues| == |pace.nows| && pace.dues[j - 1] + Interval(rate) <= pace.dues[j] && pace.nows[j - 1] <= pace.dues[j] <= pace.nows[j]
  {
    hide Interval;
    assert Follows(pace.dues[j - 1], pace.nows[j - 1], pace.dues[j], rate);
  }

  /** Operation i + 1 is never before started + i / rate. */
  lemma NeverEarly(pace: Pace, rate: nat, started: real, i: nat)
    requires rate > 0 && Paced(pace, rate, started) && i < |pace.nows|
    ensures pace.nows[i] >= started + Intervals(rate, i)
  {
    hide Intervals, Interval;
    DueSpacing(pace, rate, started, 0, i);
  }

  /** What pacing allows in a window: the rate over its length, and two more. */
  function Allowance(rate: nat, length: real): real {
    rate as real * length + 2.0
  }

  lemma AllowanceGrows(rate: nat, a: real, b: real)
    requires a <= b
    ensures Allowance(rate, a) <= Allowance(rate, b)
  {
    assert rate as real * (b - a) >= 0.0;
  }

  lemma AllowanceOf(rate: nat, steps: nat)
    requires rate > 0
    ensures Allowance(rate, Intervals(rate, steps)) == (steps + 2) as real
  {
    assert rate as real * Interval(rate) == 1.0;
    assert rate as real * (steps as real * Interval(rate)) == steps as real * (rate as real * Interval(rate));
  }

  /** The operations from one to another need a window that allows that many. */
  lemma Spread(pace: Pace, rate: nat, started: real, i: nat, j: nat)
    requires rate > 0 && Paced(pace, rate, started) && i <= j < |pace.nows|
    ensures (j - i + 1) as real <= Allowance(rate, pace.nows[j] - pace.nows[i])
  {
    assert |pace.dues| == |pace.nows|;
    hide Paced, Allowance, Interval, Intervals;
    if i < j {
      DueSpacing(pace, rate, started, i + 1, j);
      PacedStep(pace, rate, started, i + 1);
      PacedStep(pace, rate, started, j);
      AllowanceOf(rate, j - i - 1);
      AllowanceGrows(rate, Intervals(rate, j - i - 1), pace.nows[j] - pace.nows[i]);
    } else {
      AllowanceOf(rate, 0);
      IntervalsAre(rate, 0);
    }
  }

  function InWindow(pace: Pace, from: real, length: real): set<nat> {
    set k: nat | k < |pace.nows| && from <= pace.nows[k] <= from + length
  }

  /** Any window of a given length holds at most rate * length + 2 operations, however slow exports and sleeps are. */
  lemma WindowBound(pace: Pace, rate: nat, started: real, from: real, length: real)
    requires rate > 0 && Paced(pace, rate, started) && length >= 0.0
    ensures |InWindow(pace, from, length)| as real <= Allowance(rate, length)
  {
    hide Paced, Allowance, Interval, Intervals;
    var window := InWindow(pace, from, length);
    if window == {} {
      AllowanceOf(rate, 0);
      IntervalsAre(rate, 0);
      AllowanceGrows(rate, 0.0, length);
    } else {
      var i, j := Ends(window);
      Spread(pace, rate, started, i, j);
      InRange(window, i, j);
      AllowanceGrows(rate, pace.nows[j] - pace.nows[i], length);
    }
  }

  lemma {:induction false} IntervalsRise(rate: nat, i: nat, j: nat)
    requires rate > 0 && i <= j
    ensures Intervals(rate, i) <= Intervals(rate, j)
  {
    hide Intervals, Interval;
    if i < j {
      IntervalsRise(rate, i, j - 1);
      IntervalsAre(rate, j - 1);
    }
  }

  /** A run of m + 2 seconds whose first operation is a full interval late and whose others are on time. */
  function Bunched(rate: nat, started: real, m: nat): Plan
    requires rate > 0
  {
    Plan(rate, m + 2, started, k => if k == 1 then Lag(Interval(rate), 0.0, 0.0) else Lag(0.0, 0.0, 0.0))
  }

  lemma {:induction false} BunchedClocks(rate: nat, started: real, m: nat, k: nat)
    requires rate > 0
    ensures ClocksAt(Bunched(rate, started, m), k).due == started + Intervals(rate, k)
    ensures ClocksAt(Bunched(rate, started, m), k).clock <= started + Intervals(rate, k)
  {
    hide Intervals, Interval;
    var p := Bunched(rate, started, m);
    if k == 0 {
      IntervalsAre(rate, 0);
    } else {
      BunchedClocks(rate, started, m, k - 1);
      IntervalsAre(rate, k - 1);
      IntervalsAre(rate, 0);
      assert ClocksAt(p, k) == Advanced(p, k - 1, ClocksAt(p, k - 1));
    }
  }

  lemma BunchedNow(rate: nat, started: real, m: nat, k: nat)
    requires rate > 0
    ensures NowAt(Bunched(rate, started, m), k) == started + Intervals(rate, if k == 0 then 1 else k)
  {
    hide Intervals, Interval, ClocksAt;
    BunchedClocks(rate, started, m, k);
    IntervalsAre(rate, 0);
  }

  lemma {:induction false} BunchedReaches(rate: nat, started: real, m: nat, k: nat)
    requires rate > 0 && k <= m + 2 <= Bunched(rate, started, m).Operations()
    ensures Reached(Bunched(rate, started, m), k) >= m + 2
    decreases m + 2 - k
  {
    hide Intervals, Interval, NowAt;
    var p := Bunched(rate, started, m);
    if k < m + 2 {
      BunchedNow(rate, started, m, k);
      IntervalsShort(rate, if k == 0 then 1 else k);
      BunchedReaches(rate, started, m, k + 1);
    }
  }

  lemma IntervalsShort(rate: nat, steps: nat)
    requires rate > 0
    ensures Intervals(rate, steps) <= steps as real
  {
    assert Interval(rate) <= 1.0;
    assert steps as real * (1.0 - Interval(rate)) >= 0.0;
  }

  lemma EnoughOperations(rate: nat, m: nat)
    requires rate > 0
    ensures m + 2 <= rate * (m + 2)
  {
    assert (rate - 1) * (m + 2) >= 0;
  }

  /** The bound is reached: for every m some run of the generator has m + 2 operations in a window that allows m + 2. */
  lemma WindowBoundIsReached(rate: nat, started: real, m: nat) returns (p: Plan, from: real, length: real)
    requires rate > 0
    ensures p.rate == rate && p.started == started && length >= 0.0 && Allowance(rate, length) == (m + 2) as real
    ensures |InWindow(PaceOf(p, Reached(p, 0)), from, length)| == m + 2
  {
    hide Intervals, Interval, Allowance, NowAt, ClocksAt, Reached;
    p := Bunched(rate, started, m);
    from, length := started + Interval(rate), Intervals(rate, m);
    IntervalsAre(rate, m);
    IntervalsAre(rate, 0);
    AllowanceOf(rate, m);
    EnoughOperations(rate, m);
    BunchedReaches(rate, started, m, 0);
    var n := Reached(p, 0);
    var pace := PaceOf(p, n);
    forall k: nat
      ensures k in InWindow(pace, from, length) <==> k < m + 2
    {
      if k < n {
        BunchedNow(rate, started, m, k);
        var at := if k == 0 then 1 else k;
        IntervalsRise(rate, 1, at);
        if at <= m + 1 { IntervalsRise(rate, at, m + 1); } else { IntervalsRise(rate, m + 2, at); IntervalsAre(rate, m + 1); }
      }
    }
    Counted(InWindow(pace, from, length), m + 2);
  }

  lemma {:induction false} Counted(s: set<nat>, n: nat)
    requires forall k: nat :: k in s <==> k < n
    ensures |s| == n
  {
    if n > 0 {
      assert n - 1 in s;
      Counted(s - {n - 1}, n - 1);
    } else {
      assert s == {};
    }
  }

  lemma {:induction false} Ends(s: set<nat>) returns (i: nat, j: nat)
    requires s != {}
    ensures i in s && j in s && forall k :: k in s ==> i <= k <= j
  {
    var x := AnyOf(s);
    var rest := s - {x};
    if rest == {} {
      assert forall k :: k in s ==> k == x || k in rest;
      i, j := x, x;
    } else {
      i, j := Ends(rest);
      assert forall k :: k in s ==> k == x || k in rest;
      i, j := if x < i then x else i, if x > j then x else j;
    }
  }

  lemma {:induction false} InRange(s: set<nat>, i: nat, j: nat)
    requires i <= j + 1 && forall k :: k in s ==> i <= k <= j
    ensures |s| <= j - i + 1
    decreases j + 1 - i
  {
    if i <= j {
      forall k | k in s - {i}
        ensures i + 1 <= k <= j
      {
      }
      InRange(s - {i}, i + 1, j);
    } else {
      assert s == {};
    }
  }
}
