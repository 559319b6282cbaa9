/**
 Splitting telemetry records into request bodies by their encoded size. Records are the JSON texts of the
 individual spans, logs or metrics; all of them are ASCII, so characters and bytes are the same.
 */
module TelemetryBatches {
  import opened Options

  const MaxRequest: nat := 65536

  datatype Signal = Traces | Logs | Metrics

  function Opening(signal: Signal, canary: bool): string {
    var singular := match signal case Traces => "Spans" case Logs => "Logs" case Metrics => "Metrics";
    var field := match signal case Traces => "spans" case Logs => "logRecords" case Metrics => "metrics";
    "{\"resource" + singular + "\": [{\"resource\": {\"attributes\": [" + Attributes(canary) + "]}, \"scope" + singular
    + "\": [{\"scope\": {\"name\": \"restaurantos.monitoring.synthetic\"}, \"" + field + "\": ["
  }

  function Attributes(canary: bool): string {
    "{\"key\": \"service.name\", \"value\": {\"stringValue\": \"restaurantos-monitoring-synthetic\"}}"
    + if canary then ", {\"key\": \"private\", \"value\": {\"stringValue\": \"SYNTHETIC_PRIVATE_CANARY\"}}" else ""
  }

  function Closing(): string { "]}]}]}" }

  function Joined(records: seq<string>): string {
    if records == [] then "" else if |records| == 1 then records[0] else records[0] + ", " + Joined(records[1..])
  }

  function Payload(signal: Signal, records: seq<string>, canary: bool): string {
    Opening(signal, canary) + Joined(records) + Closing()
  }

  predicate Fits(signal: Signal, records: seq<string>, canary: bool) {
    |Payload(signal, records, canary)| <= MaxRequest
  }

  function Flat(batches: seq<seq<string>>): seq<string> {
    if batches == [] then [] else batches[0] + Flat(batches[1..])
  }

  predicate AllFit(signal: Signal, batches: seq<seq<string>>, canary: bool) {
    forall i :: 0 <= i < |batches| ==> Fits(signal, batches[i], canary)
  }

  // ---------------------------------------------------------------------------
  // Sizes of contiguous parts

  lemma {:induction false} JoinedGrows(a: seq<string>, b: seq<string>)
    ensures |Joined(a)| <= |Joined(a + b)| && |Joined(b)| <= |Joined(a + b)|
  {
    if a == [] {
      assert a + b == b;
    } else {
      assert (a + b)[1..] == a[1..] + b;
      JoinedGrows(a[1..], b);
    }
  }

  /** A contiguous part of a fitting batch fits. */
  lemma PartFits(signal: Signal, canary: bool, before: seq<string>, part: seq<string>, after: seq<string>)
    requires Fits(signal, before + part + after, canary)
    ensures Fits(signal, part, canary)
  {
    hide Opening, Closing, Joined;
    JoinedGrows(before, part);
    JoinedGrows(before + part, after);
  }

  /** Where record i starts among the joined records. */
  function Place(records: seq<string>, i: nat): nat
    requires i < |records|
  {
    if i == 0 then 0 else |records[0]| + 2 + Place(records[1..], i - 1)
  }

  /** Record i stands at its place, followed by the separator or by nothing. */
  predicate InPlace(text: string, records: seq<string>, i: nat)
    requires i < |records|
  {
    var p := Place(records, i);
    var end := p + |records[i]|;
    && end <= |text| && text[p..end] == records[i]
    && (if i + 1 < |records| then end + 2 <= |text| && text[end..end + 2] == ", " && Place(records, i + 1) == end + 2 else end == |text|)
  }

  lemma {:induction false} JoinedPlace(records: seq<string>, i: nat)
    requires i < |records|
    ensures InPlace(Joined(records), records, i)
  {
    if i == 0 {
      FirstInPlace(records);
    } else {
      JoinedPlace(records[1..], i - 1);
      assert Joined(records) == records[0] + ", " + Joined(records[1..]);
      hide Joined;
      NextInPlace(records, Joined(records[1..]), i);
    }
  }

  lemma FirstInPlace(records: seq<string>)
    requires records != []
    ensures InPlace(Joined(records), records, 0)
  {
    if |records| > 1 {
      var head, tail := records[0] + ", ", Joined(records[1..]);
      assert Joined(records) == head + tail;
      hide Joined;
      assert Place(records[1..], 0) == 0;
      PlaceMoves(records, 1);
      assert (head + tail)[..|head|] == head;
      assert (head + tail)[0..|records[0]|] == records[0] && (head + tail)[|records[0]|..|records[0]| + 2] == ", ";
    }
  }

  lemma NextInPlace(records: seq<string>, tail: string, i: nat)
    requires 0 < i < |records| && InPlace(tail, records[1..], i - 1)
    ensures InPlace(records[0] + ", " + tail, records, i)
  {
    hide Place;
    var head, p := records[0] + ", ", Place(records[1..], i - 1);
    assert records[1..][i - 1] == records[i];
    PlaceMoves(records, i);
    Shifted(head, tail, p, p + |records[i]|);
    if i + 1 < |records| {
      PlaceMoves(records, i + 1);
      Shifted(head, tail, p + |records[i]|, p + |records[i]| + 2);
    }
  }

  lemma PlaceMoves(records: seq<string>, i: nat)
    requires 0 < i < |records|
    ensures Place(records, i) == |records[0]| + 2 + Place(records[1..], i - 1)
  {
  }

  lemma Shifted(head: string, tail: string, from: nat, to: nat)
    requires from <= to <= |tail|
    ensures (head + tail)[|head| + from..|head| + to] == tail[from..to]
  {
  }

  /** A body is the envelope's opening, each record in its place with a comma and a space before the next, and the envelope's end. */
  lemma RecordsInPlace(signal: Signal, records: seq<string>, canary: bool, i: nat)
    requires i < |records|
    ensures var body := Payload(signal, records, canary); var p := |Opening(signal, canary)| + Place(records, i); var end := p + |records[i]|;
            && end + 6 <= |body| && body[..|Opening(signal, canary)|] == Opening(signal, canary) && body[p..end] == records[i]
            && (if i + 1 < |records| then body[end..end + 2] == ", " else body[end..] == "]}]}]}")
  {
    hide Opening, Joined, Place;
    JoinedPlace(records, i);
    var o, j := Opening(signal, canary), Joined(records);
    var p, end := Place(records, i), Place(records, i) + |records[i]|;
    assert (o + j + Closing())[|o| + p..|o| + end] == j[p..end];
    if i + 1 < |records| {
      assert (o + j + Closing())[|o| + end..|o| + end + 2] == j[end..end + 2];
    }
  }

  lemma {:induction false} FlatAppend(a: seq<seq<string>>, b: seq<seq<string>>)
    ensures Flat(a + b) == Flat(a) + Flat(b)
  {
    if a == [] {
      assert a + b == b;
    } else {
      assert (a + b)[1..] == a[1..] + b;
      FlatAppend(a[1..], b);
    }
  }

  lemma FlatAdd(batches: seq<seq<string>>, batch: seq<string>)
    ensures Flat(batches + [batch]) == Flat(batches) + batch
  {
    FlatAppend(batches, [batch]);
    assert [batch][1..] == [];
  }

  lemma FlatNothing()
    ensures Flat([]) == []
  {
  }

  /** Where batch k ends in the flat sequence. */
  function Covered(batches: seq<seq<string>>, k: nat): nat
    requires k <= |batches|
  {
    |Flat(batches[..k])|
  }

  /** Batch k is the slice of the flat sequence between the covers of k and k + 1. */
  lemma BatchIsSlice(batches: seq<seq<string>>, k: nat)
    requires k < |batches|
    ensures Covered(batches, k + 1) == Covered(batches, k) + |batches[k]| <= |Flat(batches)|
    ensures Flat(batches)[Covered(batches, k)..Covered(batches, k + 1)] == batches[k]
  {
    assert batches[..k + 1] == batches[..k] + [batches[k]];
    FlatAdd(batches[..k], batches[k]);
    assert batches == batches[..k + 1] + batches[k + 1..];
    FlatAppend(batches[..k + 1], batches[k + 1..]);
  }

  // ---------------------------------------------------------------------------
  // Greedy splitting is minimal

  /** Each batch but the last could not have taken the next record as well. */
  predicate Full(signal: Signal, batches: seq<seq<string>>, canary: bool) {
    && (forall i :: 0 <= i < |batches| ==> batches[i] != [])
    && (forall i :: 0 <= i < |batches| - 1 ==> Overflows(signal, batches, canary, i))
  }

  predicate Overflows(signal: Signal, batches: seq<seq<string>>, canary: bool, i: nat) {
    i + 1 < |batches| && batches[i + 1] != [] && !Fits(signal, batches[i] + batches[i + 1][..1], canary)
  }

  /** The first k greedy batches cover at least as much as any k fitting batches. */
  lemma {:induction false} GreedyStaysAhead(signal: Signal, canary: bool, greedy: seq<seq<string>>, other: seq<seq<string>>, k: nat)
    requires Full(signal, greedy, canary) && AllFit(signal, other, canary) && Flat(greedy) == Flat(other)
    requires k < |greedy| && k <= |other|
    ensures Covered(other, k) <= Covered(greedy, k)
  {
    hide Fits, Flat;
    if k > 0 {
      GreedyStaysAhead(signal, canary, greedy, other, k - 1);
      var flat, i := Flat(greedy), k - 1;
      BatchIsSlice(greedy, i);
      BatchIsSlice(greedy, k);
      BatchIsSlice(other, i);
      if Covered(greedy, k) < Covered(other, k) {
        var part := greedy[i] + greedy[k][..1];
        var lo, hi := Covered(other, i), Covered(other, k);
        var from, to := Covered(greedy, i), Covered(greedy, k) + 1;
        assert Overflows(signal, greedy, canary, i);
        assert part == flat[from..to];
        assert other[i] == flat[lo..from] + flat[from..to] + flat[to..hi];
        PartFits(signal, canary, flat[lo..from], part, flat[to..hi]);
      }
    }
  }

  lemma GreedyIsMinimal(signal: Signal, canary: bool, greedy: seq<seq<string>>, other: seq<seq<string>>)
    requires Full(signal, greedy, canary) && AllFit(signal, other, canary) && Flat(greedy) == Flat(other)
    ensures |greedy| <= |other|
  {
    hide Fits;
    if |other| < |greedy| {
      GreedyStaysAhead(signal, canary, greedy, other, |other|);
      assert other[..|other|] == other && greedy[|other|] != [];
      BatchIsSlice(greedy, |other|);
    }
  }

  // ---------------------------------------------------------------------------
  // The splitting loop

  predicate AloneFits(signal: Signal, records: seq<string>, canary: bool) {
    forall k :: 0 <= k < |records| ==> Fits(signal, [records[k]], canary)
  }

  /** `bodies` are the encodings of consecutive non-empty batches of `records`, each within the limit. */
  ghost predicate Encodes(signal: Signal, records: seq<string>, canary: bool, bodies: seq<string>, batches: seq<seq<string>>) {
    && Flat(batches) == records && |bodies| == |batches|
    && forall i :: 0 <= i < |batches| ==> batches[i] != [] && Fits(signal, batches[i], canary) && bodies[i] == Payload(signal, batches[i], canary)
  }

  /** The closed batches and the pending one, as one split of the records read so far. */
  ghost predicate Reading(signal: Signal, canary: bool, read: seq<string>, bodies: seq<string>, batches: seq<seq<string>>, pending: seq<string>) {
    && (pending == [] ==> batches == [])
    && var all := if pending == [] then batches else batches + [pending];
       Encodes(signal, read, canary, bodies + (if pending == [] then [] else [Payload(signal, pending, canary)]), all)
       && Full(signal, all, canary)
  }

  lemma Extends(signal: Signal, canary: bool, read: seq<string>, bodies: seq<string>, batches: seq<seq<string>>, pending: seq<string>, record: string)
    requires Reading(signal, canary, read, bodies, batches, pending) && Fits(signal, pending + [record], canary)
    ensures Reading(signal, canary, read + [record], bodies, batches, pending + [record])
  {
    hide Fits, Payload, Flat, Full;
    var all, was := batches + [pending + [record]], batches + [pending];
    FlatAdd(batches, pending + [record]);
    FlatAdd(batches, pending);
    if pending == [] {
      FlatNothing();
      assert read == [] && bodies == [] && batches == [] && pending + [record] == [record];
      assert all == [[record]];
      FullStart(signal, canary, record);
    } else {
      assert read == Flat(batches) + pending;
      assert Flat(all) == read + [record];
      FullExtends(signal, canary, batches, pending, record);
      forall i | 0 <= i < |all|
        ensures all[i] != [] && Fits(signal, all[i], canary) && (bodies + [Payload(signal, pending + [record], canary)])[i] == Payload(signal, all[i], canary)
      {
        if i < |batches| { assert was[i] == all[i]; }
      }
    }
  }

  lemma FullStart(signal: Signal, canary: bool, record: string)
    ensures Full(signal, [[record]], canary)
  {
  }

  lemma FullExtends(signal: Signal, canary: bool, batches: seq<seq<string>>, pending: seq<string>, record: string)
    requires pending != [] && Full(signal, batches + [pending], canary)
    ensures Full(signal, batches + [pending + [record]], canary)
  {
    hide Fits;
    var all, was := batches + [pending + [record]], batches + [pending];
    forall i | 0 <= i < |all|
      ensures all[i] != [] && (i < |all| - 1 ==> Overflows(signal, all, canary, i))
    {
      if i < |all| - 1 {
        assert Overflows(signal, was, canary, i) && all[i] == was[i];
        assert (pending + [record])[..1] == pending[..1];
      }
    }
  }

  lemma Closes(signal: Signal, canary: bool, read: seq<string>, bodies: seq<string>, batches: seq<seq<string>>, pending: seq<string>, record: string)
    requires Reading(signal, canary, read, bodies, batches, pending) && pending != []
    requires !Fits(signal, pending + [record], canary) && Fits(signal, [record], canary)
    ensures Reading(signal, canary, read + [record], bodies + [Payload(signal, pending, canary)], batches + [pending], [record])
  {
    hide Fits, Payload, Flat;
    var closed := batches + [pending];
    var all := closed + [[record]];
    FlatAdd(closed, [record]);
    forall i | 0 <= i < |all| - 1
      ensures Overflows(signal, all, canary, i)
    {
      if i < |closed| - 1 {
        assert Overflows(signal, closed, canary, i);
      } else {
        assert [record][..1] == [record];
      }
    }
  }

  lemma {:induction false} FlatElement(batches: seq<seq<string>>, k: nat) returns (i: nat, j: nat)
    requires k < |Flat(batches)|
    ensures i < |batches| && j < |batches[i]| && batches[i][j] == Flat(batches)[k]
  {
    if k < |batches[0]| {
      i, j := 0, k;
    } else {
      i, j := FlatElement(batches[1..], k - |batches[0]|);
      i := i + 1;
    }
  }

  lemma EncodedFitAlone(signal: Signal, records: seq<string>, canary: bool, bodies: seq<string>, batches: seq<seq<string>>)
    requires Encodes(signal, records, canary, bodies, batches)
    ensures AloneFits(signal, records, canary)
  {
    hide Fits, Payload, Flat;
    forall k | 0 <= k < |records|
      ensures Fits(signal, [records[k]], canary)
    {
      var i, j := FlatElement(batches, k);
      var b := batches[i];
      assert b == b[..j] + [b[j]] + b[j + 1..];
      PartFits(signal, canary, b[..j], [b[j]], b[j + 1..]);
    }
  }

  /** No split of the records into fitting batches, empty ones allowed, has fewer than n. */
  ghost predicate Minimal(signal: Signal, records: seq<string>, canary: bool, n: nat) {
    forall other: seq<seq<string>> :: Flat(other) == records && AllFit(signal, other, canary) ==> n <= |other|
  }

  /**
   Splits by encoded size: the batches are the records in order, each body is within the limit, it fails
   exactly when some record alone is over it, and no split into fitting batches has fewer of them.
   */
  method Encode(signal: Signal, records: seq<string>, canary: bool) returns (result: Option<seq<string>>, ghost batches: seq<seq<string>>)
    ensures result.Some? <==> AloneFits(signal, records, canary)
    ensures result.Some? ==> Encodes(signal, records, canary, result.value, batches)
    ensures result.Some? ==> Minimal(signal, records, canary, |result.value|)
  {
    hide Payload, Reading, Encodes, Minimal;
    var bodies: seq<string> := [];
    var pending: seq<string> := [];
    batches := [];
    ReadingNothing(signal, canary);
    for k := 0 to |records|
      invariant Reading(signal, canary, records[..k], bodies, batches, pending)
    {
      var record := records[k];
      assert records[..k + 1] == records[..k] + [record];
      var candidate := Payload(signal, pending + [record], canary);
      if |candidate| > MaxRequest {
        if pending == [] {
          assert pending + [record] == [record];
          return None, batches;
        }
        bodies := bodies + [Payload(signal, pending, canary)];
        ghost var closed := pending;
        pending := [record];
        if |Payload(signal, pending, canary)| > MaxRequest {
          return None, batches;
        }
        Closes(signal, canary, records[..k], bodies[..|bodies| - 1], batches, closed, record);
        batches := batches + [closed];
      } else {
        Extends(signal, canary, records[..k], bodies, batches, pending, record);
        pending := pending + [record];
      }
    }
    assert records[..|records|] == records;
    ReadingEnds(signal, canary, records, bodies, batches, pending);
    if pending != [] {
      bodies := bodies + [Payload(signal, pending, canary)];
      batches := batches + [pending];
    }
    EncodedFitAlone(signal, records, canary, bodies, batches);
    result := Some(bodies);
  }

  /** Closing the last batch completes a minimal encoding. */
  lemma ReadingEnds(signal: Signal, canary: bool, records: seq<string>, bodies: seq<string>, batches: seq<seq<string>>, pending: seq<string>)
    requires Reading(signal, canary, records, bodies, batches, pending)
    ensures pending == [] ==> Encodes(signal, records, canary, bodies, batches) && Minimal(signal, records, canary, |bodies|)
    ensures pending != [] ==>
              && Encodes(signal, records, canary, bodies + [Payload(signal, pending, canary)], batches + [pending])
              && Minimal(signal, records, canary, |bodies| + 1)
  {
    hide Payload, Fits, Full, Flat;
    assert bodies + [] == bodies;
    var all := if pending == [] then batches else batches + [pending];
    forall other: seq<seq<string>> | Flat(other) == records && AllFit(signal, other, canary)
      ensures |all| <= |other|
    {
      GreedyIsMinimal(signal, canary, all, other);
    }
  }

  lemma ReadingNothing(signal: Signal, canary: bool)
    ensures Reading(signal, canary, [], [], [], [])
  {
    hide Payload;
  }
}
