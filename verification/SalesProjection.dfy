/**
 The analytics sales projection: one retained contribution per order and one running total
 per creation date, changed together by order events and by the maintenance rebuild, and
 compared day by day with the authoritative orders.
 */
module SalesProjection {
  import opened Options
  import opened SalesContributions

  datatype Event =
    | OrderCompleted(orderId: int, revision: int, day: int, total: int)
    | OrderDeleted(orderId: int, revision: int, day: int)
    | OtherEvent

  datatype Outcome = Processed | Skipped | Unsupported

  function Incoming(e: Event): Contribution
    requires !e.OtherEvent?
  {
    match e
    case OrderCompleted(orderId, revision, day, total) => Contribution(orderId, revision, day, total, Completed)
    case OrderDeleted(orderId, revision, day) => Contribution(orderId, revision, day, 0, Deleted)
  }

  /** The two tables of one restaurant. */
  datatype Tables = Tables(rows: Rows, daily: Daily)

  /** Every day's running total is the aggregate of the contributions dated that day. */
  ghost predicate Agrees(t: Tables) {
    forall day :: At(t.daily, day) == Aggregate(t.rows, day)
  }

  /** The tables' own constraints, and rows kept under their order's key. */
  predicate RowsOk(rows: Rows) {
    forall k :: k in rows ==> RowOk(rows[k]) && rows[k].orderId == k
  }

  ghost predicate Sound(t: Tables) {
    Agrees(t) && RowsOk(t.rows)
  }

  function Current(rows: Rows, orderId: int): Option<Contribution> {
    if orderId in rows then Some(rows[orderId]) else None
  }

  function Shifted(daily: Daily, day: int, change: Totals): Daily {
    daily[day := At(daily, day).Plus(change)]
  }

  /** Take the stored contribution out of its day, if there is one that counts. */
  function Withdrawn(t: Tables, orderId: int): Daily {
    if orderId in t.rows && t.rows[orderId].state == Completed
    then Shifted(t.daily, t.rows[orderId].day, Totals(1, t.rows[orderId].total).Negated())
    else t.daily
  }

  function Credited(daily: Daily, c: Contribution): Daily {
    if c.state == Completed then Shifted(daily, c.day, Totals(1, c.total)) else daily
  }

  /** The effect of an accepted contribution on both tables. */
  function Replaced(t: Tables, c: Contribution): Tables {
    Tables(t.rows[c.orderId := c], Credited(Withdrawn(t, c.orderId), c))
  }

  function Applied(t: Tables, c: Contribution): Tables {
    if ShouldApply(Current(t.rows, c.orderId), c) then Replaced(t, c) else t
  }

  function Run(t: Tables, deliveries: seq<Contribution>): Tables {
    if deliveries == [] then t
    else Applied(Run(t, deliveries[..|deliveries| - 1]), deliveries[|deliveries| - 1])
  }

  lemma WithdrawnAt(t: Tables, orderId: int, day: int)
    ensures At(Withdrawn(t, orderId), day).Plus(ShareOf(t.rows, orderId, day)) == At(t.daily, day)
  {
  }

  lemma CreditedAt(daily: Daily, c: Contribution, day: int)
    ensures At(Credited(daily, c), day) == At(daily, day).Plus(Share(c, day))
  {
  }

  lemma Balance(before: Totals, without: Totals, share: Totals, credit: Totals, after: Totals)
    requires without.Plus(share) == before
    requires after.Plus(share) == before.Plus(credit)
    ensures after == without.Plus(credit)
  {
  }

  lemma {:induction false} ReplacedAgreesOn(t: Tables, c: Contribution, day: int)
    requires At(t.daily, day) == Aggregate(t.rows, day)
    ensures At(Replaced(t, c).daily, day) == Aggregate(Replaced(t, c).rows, day)
  {
    AggregateStored(t.rows, c, day);
    WithdrawnAt(t, c.orderId, day);
    CreditedAt(Withdrawn(t, c.orderId), c, day);
    Balance(At(t.daily, day), At(Withdrawn(t, c.orderId), day), ShareOf(t.rows, c.orderId, day), Share(c, day),
            Aggregate(t.rows[c.orderId := c], day));
  }

  /** Whatever decides which contributions are accepted, accepting one keeps the days right. */
  lemma {:induction false} ReplacedAgrees(t: Tables, c: Contribution)
    requires Agrees(t)
    ensures Agrees(Replaced(t, c))
  {
    forall day ensures At(Replaced(t, c).daily, day) == Aggregate(Replaced(t, c).rows, day) {
      ReplacedAgreesOn(t, c, day);
    }
  }

  lemma {:induction false} RunAgrees(t: Tables, deliveries: seq<Contribution>)
    requires Agrees(t)
    ensures Agrees(Run(t, deliveries))
  {
    if deliveries != [] {
      RunAgrees(t, deliveries[..|deliveries| - 1]);
      ReplacedAgrees(Run(t, deliveries[..|deliveries| - 1]), deliveries[|deliveries| - 1]);
    }
  }

  lemma {:induction false} RunRowsOk(t: Tables, deliveries: seq<Contribution>)
    requires RowsOk(t.rows)
    requires forall i :: 0 <= i < |deliveries| ==> RowOk(deliveries[i])
    ensures RowsOk(Run(t, deliveries).rows)
  {
    if deliveries != [] {
      RunRowsOk(t, deliveries[..|deliveries| - 1]);
    }
  }

  /** Hence no run of events, in any order and with any repetition, can break the daily checks. */
  lemma RunKeepsDailyChecks(t: Tables, deliveries: seq<Contribution>, day: int)
    requires Sound(t)
    requires forall i :: 0 <= i < |deliveries| ==> RowOk(deliveries[i])
    ensures var total := At(Run(t, deliveries).daily, day);
            total == Aggregate(Run(t, deliveries).rows, day) && total.count >= 0 && total.sales >= 0
  {
    RunAgrees(t, deliveries);
    RunRowsOk(t, deliveries);
    AggregateNonNegative(Run(t, deliveries).rows, day);
  }

  /** Between the two deltas of one event the checks hold too: the order is merely absent. */
  lemma {:induction false} WithdrawnAggregate(t: Tables, orderId: int, day: int)
    requires At(t.daily, day) == Aggregate(t.rows, day)
    ensures At(Withdrawn(t, orderId), day) == Aggregate(t.rows - {orderId}, day)
  {
    WithdrawnAt(t, orderId, day);
    if orderId in t.rows {
      AggregateWithout(t.rows, orderId, day);
      PlusCancels(At(Withdrawn(t, orderId), day), Aggregate(t.rows - {orderId}, day), ShareOf(t.rows, orderId, day));
    } else {
      assert t.rows - {orderId} == t.rows;
    }
  }

  lemma {:induction false} WithdrawnNonNegative(t: Tables, orderId: int, day: int)
    requires At(t.daily, day) == Aggregate(t.rows, day) && RowsOk(t.rows)
    ensures At(Withdrawn(t, orderId), day).count >= 0 && At(Withdrawn(t, orderId), day).sales >= 0
  {
    WithdrawnAggregate(t, orderId, day);
    AggregateNonNegative(t.rows - {orderId}, day);
  }

  lemma PlusCancels(a: Totals, b: Totals, share: Totals)
    requires a.Plus(share) == share.Plus(b)
    ensures a == b
  {
  }

  // ---------------------------------------------------------------------------
  // Rebuild

  /** A rebuild must not silently forget a counted order that has no producer fact any more. */
  predicate Rebuildable(rows: Rows, baseline: Rows) {
    forall k :: k in rows && k !in baseline ==> rows[k].state == Deleted
  }

  /** The days on which some row counts: after a rebuild no other day has a row. */
  function CountedDays(rows: Rows): set<int> {
    set k | k in rows && rows[k].state == Completed :: rows[k].day
  }

  /** The rebuilt tables hold the baseline orders and every tombstone already held, nothing else. */
  lemma RebuiltRows(rows: Rows, baseline: Rows)
    requires Rebuildable(rows, baseline)
    ensures forall k :: k in rows + baseline <==> k in baseline || (k in rows && rows[k].state == Deleted)
    ensures forall k :: k in baseline ==> (rows + baseline)[k] == baseline[k]
    ensures Rebuildable(rows + baseline, baseline) && (rows + baseline) + baseline == rows + baseline
  {
  }

  /** The rebuilt daily table is a function of the rebuilt rows alone, so a second rebuild changes nothing. */
  lemma RebuiltDailyUnique(rows: Rows, a: Daily, b: Daily)
    requires Agrees(Tables(rows, a)) && a.Keys == CountedDays(rows)
    requires Agrees(Tables(rows, b)) && b.Keys == CountedDays(rows)
    ensures a == b
  {
    forall day | day in a ensures a[day] == b[day] {
      assert At(a, day) == Aggregate(rows, day) == At(b, day);
    }
  }

  /** An event still queued when the rebuild ran, at or below the stored revision, has no effect after it. */
  lemma QueuedEventHasNoEffect(t: Tables, c: Contribution)
    requires c.orderId in t.rows
    requires c.revision <= t.rows[c.orderId].revision || t.rows[c.orderId].state == Deleted
    ensures Applied(t, c) == t && forall more :: Run(t, [c] + more) == Run(t, more)
  {
    forall more ensures Run(t, [c] + more) == Run(t, more) {
      RunAfterNoEffect(t, c, more);
    }
  }

  lemma {:induction false} RunAfterNoEffect(t: Tables, c: Contribution, more: seq<Contribution>)
    requires Applied(t, c) == t
    ensures Run(t, [c] + more) == Run(t, more)
  {
    if more == [] {
      assert [c] + more == [c];
      assert [c][..0] == [];
    } else {
      RunAfterNoEffect(t, c, more[..|more| - 1]);
      assert ([c] + more)[..|more|] == [c] + more[..|more| - 1];
    }
  }

  // ---------------------------------------------------------------------------
  // What one event does, in its own terms

  /** The event is news about its order: nothing is stored yet, or something older that is not a deletion. */
  predicate IsNews(rows: Rows, e: Event) {
    !e.OtherEvent? && (e.orderId in rows ==> rows[e.orderId].state != Deleted && rows[e.orderId].revision < e.revision)
  }

  predicate Counted(rows: Rows, orderId: int, day: int) {
    orderId in rows && rows[orderId].state == Completed && rows[orderId].day == day
  }

  /** How the day's totals before and after an event compare. */
  predicate Moves(t: Tables, t': Tables, e: Event, day: int) {
    if !IsNews(t.rows, e) then At(t'.daily, day) == At(t.daily, day) else
      && At(t'.daily, day).count == At(t.daily, day).count - (if Counted(t.rows, e.orderId, day) then 1 else 0) + (if e.OrderCompleted? && e.day == day then 1 else 0)
      && At(t'.daily, day).sales == At(t.daily, day).sales - (if Counted(t.rows, e.orderId, day) then t.rows[e.orderId].total else 0) + (if e.OrderCompleted? && e.day == day then e.total else 0)
  }

  /** What the order's row says after an event. */
  predicate Tells(row: Option<Contribution>, e: Event)
    requires !e.OtherEvent?
  {
    && row.Some? && row.value.orderId == e.orderId && row.value.revision == e.revision && row.value.day == e.day
    && (if e.OrderCompleted? then row.value.state == Completed && row.value.total == e.total else row.value.state == Deleted && row.value.total == 0)
  }

  /**
   An event that is news takes exactly the order's old count and sales out of their day and, if it is a
   completion, puts one order and its own total into its own day; any other event changes nothing.
   */
  lemma EventMovesTotals(t: Tables, e: Event, day: int)
    requires !e.OtherEvent?
    ensures Moves(t, Applied(t, Incoming(e)), e, day) && (!IsNews(t.rows, e) ==> Applied(t, Incoming(e)) == t)
  {
    hide Withdrawn, Credited, At;
    var c := Incoming(e);
    assert IsNews(t.rows, e) <==> ShouldApply(Current(t.rows, e.orderId), c);
    if IsNews(t.rows, e) {
      WithdrawnAt(t, e.orderId, day);
      CreditedAt(Withdrawn(t, e.orderId), c, day);
      assert Applied(t, c).daily == Credited(Withdrawn(t, e.orderId), c);
    }
  }

  lemma EventEffect(t: Tables, e: Event)
    ensures e.OtherEvent? ==> !IsNews(t.rows, e) && forall day :: Moves(t, t, e, day)
    ensures !e.OtherEvent? ==>
              && (IsNews(t.rows, e) <==> ShouldApply(Current(t.rows, Incoming(e).orderId), Incoming(e)))
              && (IsNews(t.rows, e) ==> Tells(Current(Applied(t, Incoming(e)).rows, e.orderId), e))
              && forall day :: Moves(t, Applied(t, Incoming(e)), e, day)
  {
    if !e.OtherEvent? {
      forall day
        ensures Moves(t, Applied(t, Incoming(e)), e, day)
      {
        EventMovesTotals(t, e, day);
      }
      if IsNews(t.rows, e) { EventIsStored(t, e, e.orderId); }
    }
  }

  /** The row keeps what the event says; other orders' rows stay. */
  lemma EventIsStored(t: Tables, e: Event, orderId: int)
    requires IsNews(t.rows, e)
    ensures var row := Current(Applied(t, Incoming(e)).rows, orderId);
            if orderId != e.orderId then row == Current(t.rows, orderId)
            else Tells(row, e)
  {
  }

  /** What a deletion leaves behind nothing later replaces. */
  lemma {:induction false} DeletionStays(t: Tables, e: Event, more: seq<Contribution>)
    requires e.OrderDeleted? && IsNews(t.rows, e)
    ensures Current(Run(Applied(t, Incoming(e)), more).rows, e.orderId) == Some(Incoming(e))
  {
    if more != [] { DeletionStays(t, e, more[..|more| - 1]); }
  }

  // ---------------------------------------------------------------------------
  // The projection service, on tables updated in place

  datatype Discrepancy = Discrepancy(day: int, authoritative: Totals, projected: Totals)

  class Projection {
    var contributions: Rows
    var daily: Daily

    ghost function Value(): Tables reads this {
      Tables(contributions, daily)
    }

    constructor ()
      ensures Value() == Tables(map[], map[]) && Sound(Value())
    {
      contributions, daily := map[], map[];
    }

    /** One daily row changes; the table's own checks are the precondition. */
    method Delta(day: int, count: int, sales: int)
      requires At(daily, day).count + count >= 0 && At(daily, day).sales + sales >= 0
      modifies this`daily
      ensures daily == Shifted(old(daily), day, Totals(count, sales))
    {
      var row := ZERO;
      if day in daily {
        row := daily[day];
      }
      daily := daily[day := Totals(row.count + count, row.sales + sales)];
    }

    method ApplyOrderEvent(event: Event) returns (outcome: Outcome)
      requires Sound(Value())
      requires !event.OtherEvent? ==> RowOk(Incoming(event))
      modifies this
      ensures Sound(Value())
      ensures event.OtherEvent? <==> outcome == Unsupported
      ensures event.OtherEvent? ==> Value() == old(Value())
      ensures !event.OtherEvent? ==> Value() == Applied(old(Value()), Incoming(event))
      ensures outcome == Processed <==> IsNews(old(contributions), event)
      ensures outcome == Processed ==> Tells(Current(contributions, event.orderId), event)
      ensures forall day :: Moves(old(Value()), Value(), event, day)
    {
      hide Aggregate, Moves, Tells, IsNews;
      EventEffect(Value(), event);
      if event.OtherEvent? {
        return Unsupported;
      }
      var incoming := Incoming(event);
      var current := Current(contributions, incoming.orderId);
      if !ShouldApply(current, incoming) {
        return Skipped;
      }
      ghost var before := Value();
      if current.Some? && current.value.Count() != 0 {
        WithdrawnNonNegative(before, incoming.orderId, current.value.day);
        Delta(current.value.day, -1, -current.value.total);
      }
      assert daily == Withdrawn(before, incoming.orderId);
      if incoming.Count() != 0 {
        WithdrawnNonNegative(before, incoming.orderId, incoming.day);
        Delta(incoming.day, 1, incoming.total);
      }
      contributions := contributions[incoming.orderId := incoming];
      ReplacedAgrees(before, incoming);
      return Processed;
    }

    /** Seed or rebuild from the authoritative baseline; a refused rebuild changes nothing. */
    method Rebuild(facts: Rows) returns (ok: bool)
      requires RowsOk(contributions) && RowsOk(facts)
      modifies this
      ensures ok <==> Rebuildable(old(contributions), facts)
      ensures !ok ==> Value() == old(Value())
      ensures ok ==> Sound(Value()) && contributions == old(contributions) + facts
      ensures ok ==> daily.Keys == CountedDays(contributions)
    {
      hide Aggregate;
      hide SeededSo;
      hide RowsOk;
      var existing := contributions;
      var baseline;
      ok, baseline := WithTombstones(existing, facts);
      if !ok {
        return;
      }
      daily := map[];
      EmptyAgrees();
      SeededNone(existing, baseline);
      var ids := Sorted(baseline.Keys);
      ghost var done: Rows := map[];
      for i := 0 to |ids|
        invariant SeededSo(contributions, existing, baseline, done) && done.Keys == set k | k in ids[..i]
        invariant Agrees(Tables(done, daily)) && daily.Keys == CountedDays(done)
      {
        var orderId := ids[i];
        assert ids[..i + 1] == ids[..i] + [orderId];
        assert orderId in baseline.Keys;
        SeededStep(contributions, existing, baseline, done, orderId, ids, i);
        contributions := contributions[orderId := baseline[orderId]];
        Seed(baseline[orderId], done);
        done := done[orderId := baseline[orderId]];
      }
      assert ids[..|ids|] == ids;
      assert forall k :: k in done.Keys <==> k in baseline.Keys;
      assert done.Keys == baseline.Keys;
      SeededAll(contributions, existing, facts, baseline, done);
    }

    /** Credit one baseline value to its day. */
    method Seed(value: Contribution, ghost done: Rows)
      requires RowsOk(done) && RowOk(value) && value.orderId !in done
      requires Agrees(Tables(done, daily)) && daily.Keys == CountedDays(done)
      modifies this`daily
      ensures Agrees(Tables(done[value.orderId := value], daily))
      ensures daily.Keys == CountedDays(done[value.orderId := value])
    {
      hide Aggregate;
      ghost var before := Tables(done, daily);
      if value.Count() != 0 {
        AggregateNonNegative(done, value.day);
        Delta(value.day, 1, value.total);
      }
      ReplacedAgrees(before, value);
      assert Replaced(before, value) == Tables(done[value.orderId := value], daily);
      CountedDaysGrow(done, value);
    }

    /** Compare every day either side knows, in date order, an absent day counting as zero. */
    method Reconcile(authoritative: Daily) returns (matches: bool, discrepancies: seq<Discrepancy>)
      ensures matches <==> Matches(daily, authoritative)
      ensures forall day :: Differs(daily, authoritative, day) <==> day in Days(discrepancies)
      ensures forall d :: d in discrepancies ==> d == Discrepancy(d.day, At(authoritative, d.day), At(daily, d.day))
      ensures Rising(Days(discrepancies))
    {
      var projected := daily;
      discrepancies := Compare(projected, authoritative);
      matches := discrepancies == [];
      if !matches {
        assert Days(discrepancies)[0] in Days(discrepancies);
        assert Differs(projected, authoritative, Days(discrepancies)[0]);
      }
    }

    /** An operator's rebuild followed by a reconciliation: it matches exactly when the facts add up to the authoritative totals. */
    method RebuildThenReconcile(facts: Rows, authoritative: Daily) returns (ok: bool, matches: bool)
      requires RowsOk(contributions) && RowsOk(facts)
      modifies this
      ensures ok <==> Rebuildable(old(contributions), facts)
      ensures ok ==> (matches <==> Totalled(authoritative, facts))
    {
      hide Aggregate, RowsOk, Matches, Totalled;
      ghost var rows := contributions;
      ok := Rebuild(facts);
      var discrepancies;
      matches, discrepancies := Reconcile(authoritative);
      if ok { RebuiltMatches(rows, facts, daily, authoritative); }
    }
  }

  /** The authoritative totals of these rows, day by day. */
  ghost predicate Totalled(totals: Daily, rows: Rows) {
    forall day :: At(totals, day) == Aggregate(rows, day)
  }

  /** Reconciliation finds no discrepancy. */
  ghost predicate Matches(projected: Daily, authoritative: Daily) {
    forall day :: !Differs(projected, authoritative, day)
  }

  /** A projection in step with some rows reconciles exactly with the authoritative totals of those rows. */
  lemma InStepMatches(projected: Daily, authoritative: Daily, rows: Rows)
    requires Totalled(projected, rows)
    ensures Matches(projected, authoritative) <==> Totalled(authoritative, rows)
  {
    hide Aggregate, At;
    if Matches(projected, authoritative) {
      forall day
        ensures At(authoritative, day) == Aggregate(rows, day)
      {
        assert !Differs(projected, authoritative, day);
      }
    }
  }

  /** Tombstones add nothing, so rebuilt days are the totals of the facts alone. */
  lemma RebuiltMatches(rows: Rows, facts: Rows, daily: Daily, authoritative: Daily)
    requires Rebuildable(rows, facts) && Agrees(Tables(rows + facts, daily))
    ensures Matches(daily, authoritative) <==> Totalled(authoritative, facts)
  {
    hide Aggregate, Matches;
    forall day
      ensures At(daily, day) == Aggregate(facts, day)
    {
      AggregateDependsOnShares(rows + facts, facts, day);
    }
    InStepMatches(daily, authoritative, facts);
  }

  method Compare(projected: Daily, authoritative: Daily) returns (discrepancies: seq<Discrepancy>)
    ensures forall day :: Differs(projected, authoritative, day) <==> day in Days(discrepancies)
    ensures forall d :: d in discrepancies ==> d == Discrepancy(d.day, At(authoritative, d.day), At(projected, d.day))
    ensures Rising(Days(discrepancies))
  {
    var days := Sorted(projected.Keys + authoritative.Keys);
    discrepancies := [];
    for i := 0 to |days|
      invariant forall day :: day in Days(discrepancies) <==> day in days[..i] && Differs(projected, authoritative, day)
      invariant forall d :: d in discrepancies ==> d == Discrepancy(d.day, At(authoritative, d.day), At(projected, d.day))
      invariant Rising(Days(discrepancies))
    {
      var day := days[i];
      assert days[..i + 1] == days[..i] + [day];
      if Differs(projected, authoritative, day) {
        DaysAppend(discrepancies, Discrepancy(day, At(authoritative, day), At(projected, day)));
        discrepancies := discrepancies + [Discrepancy(day, At(authoritative, day), At(projected, day))];
      }
    }
    assert days[..|days|] == days;
  }

  method Sorted(keys: set<int>) returns (days: seq<int>)
    ensures Rising(days) && forall day :: day in days <==> day in keys
  {
    days := [];
    var left := keys;
    while left != {}
      invariant left <= keys && Rising(days)
      invariant forall day :: day in days <==> day in keys - left
      invariant forall i, day :: 0 <= i < |days| && day in left ==> days[i] < day
      decreases |left|
    {
      HasLeast(left);
      var day: int :| day in left && forall other :: other in left ==> day <= other;
      left := left - {day};
      days := days + [day];
    }
  }

  predicate Differs(projected: Daily, authoritative: Daily, day: int) {
    At(authoritative, day) != At(projected, day)
  }

  lemma DaysAppend(ds: seq<Discrepancy>, d: Discrepancy)
    ensures Days(ds + [d]) == Days(ds) + [d.day]
    ensures Rising(Days(ds)) && (forall seen :: seen in Days(ds) ==> seen < d.day) ==> Rising(Days(ds + [d]))
  {
    var days := Days(ds + [d]);
    assert days == Days(ds) + [d.day];
    if Rising(Days(ds)) && (forall seen :: seen in Days(ds) ==> seen < d.day) {
      forall i, j | 0 <= i < j < |days| ensures days[i] < days[j] {
        assert days[i] == Days(ds)[i] && days[i] in Days(ds);
      }
    }
  }

  function Days(ds: seq<Discrepancy>): (days: seq<int>)
    ensures |days| == |ds| && forall i :: 0 <= i < |ds| ==> days[i] == ds[i].day
  {
    seq(|ds|, i requires 0 <= i < |ds| => ds[i].day)
  }

  predicate Rising(days: seq<int>) {
    forall i, j :: 0 <= i < j < |days| ==> days[i] < days[j]
  }

  /** While reseeding: the rows stored so far are the baseline's, the others still the existing ones. */
  ghost predicate SeededSo(stored: Rows, existing: Rows, baseline: Rows, done: Rows) {
    && RowsOk(baseline)
    && done.Keys <= baseline.Keys
    && (forall k :: k in done ==> done[k] == baseline[k])
    && stored == existing + done
  }

  lemma SeededNone(existing: Rows, baseline: Rows)
    requires RowsOk(baseline)
    ensures SeededSo(existing, existing, baseline, map[])
  {
    assert existing == existing + map[];
  }

  lemma SeededStep(stored: Rows, existing: Rows, baseline: Rows, done: Rows, k: int, ids: seq<int>, i: nat)
    requires SeededSo(stored, existing, baseline, done) && k in baseline
    requires Rising(ids) && i < |ids| && ids[i] == k && done.Keys == set o | o in ids[..i]
    ensures SeededSo(stored[k := baseline[k]], existing, baseline, done[k := baseline[k]])
    ensures RowsOk(done) && RowOk(baseline[k]) && baseline[k].orderId == k && k !in done
  {
    assert stored[k := baseline[k]] == existing + done[k := baseline[k]];
  }

  lemma SeededAll(stored: Rows, existing: Rows, facts: Rows, baseline: Rows, done: Rows)
    requires SeededSo(stored, existing, baseline, done) && done.Keys == baseline.Keys
    requires baseline == existing + facts
    ensures stored == baseline && done == baseline
  {
    assert forall k :: k in done ==> k in baseline && done[k] == baseline[k];
    assert forall k :: k in baseline ==> k in done;
    assert done == baseline;
    assert existing + (existing + facts) == existing + facts;
  }

  lemma EmptyAgrees()
    ensures Agrees(Tables(map[], map[])) && CountedDays(map[]) == {}
  {
  }

  /** The baseline so far: the facts, plus the rows among `done` that the facts do not know. */
  predicate Merged(baseline: Rows, existing: Rows, facts: Rows, done: set<int>) {
    && done <= existing.Keys
    && baseline.Keys == facts.Keys + done
    && (forall k :: k in baseline ==> baseline[k] == if k in facts then facts[k] else existing[k])
    && (forall k :: k in done && k !in facts ==> existing[k].state == Deleted)
  }

  lemma MergedAll(baseline: Rows, existing: Rows, facts: Rows)
    requires Merged(baseline, existing, facts, existing.Keys) && RowsOk(existing) && RowsOk(facts)
    ensures baseline == existing + facts && RowsOk(baseline) && Rebuildable(existing, facts)
  {
    assert baseline.Keys == (existing + facts).Keys;
    assert forall k :: k in baseline ==> baseline[k] == (existing + facts)[k];
  }

  lemma MergedStep(baseline: Rows, existing: Rows, facts: Rows, done: set<int>, k: int)
    requires Merged(baseline, existing, facts, done) && k in existing
    requires k in facts || existing[k].state == Deleted
    ensures Merged(if k in facts then baseline else baseline[k := existing[k]], existing, facts, done + {k})
  {
  }

  /** Add the tombstones held for orders the baseline no longer knows; refuse any other such row. */
  method WithTombstones(existing: Rows, facts: Rows) returns (ok: bool, baseline: Rows)
    requires RowsOk(existing) && RowsOk(facts)
    ensures ok <==> Rebuildable(existing, facts)
    ensures ok ==> baseline == existing + facts && RowsOk(baseline)
  {
    hide Merged;
    hide RowsOk;
    baseline := facts;
    var ids := Sorted(existing.Keys);
    ghost var done := {};
    MergedNone(existing, facts);
    for i := 0 to |ids|
      invariant done == set k | k in ids[..i]
      invariant Merged(baseline, existing, facts, done)
    {
      var orderId := ids[i];
      assert ids[..i + 1] == ids[..i] + [orderId];
      assert orderId in existing.Keys;
      if orderId !in facts && existing[orderId].state != Deleted {
        assert !Rebuildable(existing, facts);
        return false, baseline;
      }
      MergedStep(baseline, existing, facts, done, orderId);
      if orderId !in facts {
        baseline := baseline[orderId := existing[orderId]];
      }
      done := done + {orderId};
    }
    assert ids[..|ids|] == ids;
    assert forall k :: k in done <==> k in existing.Keys;
    assert done == existing.Keys;
    MergedAll(baseline, existing, facts);
    return true, baseline;
  }

  lemma MergedNone(existing: Rows, facts: Rows)
    ensures Merged(facts, existing, facts, {})
  {
  }

  lemma CountedDaysGrow(rows: Rows, c: Contribution)
    requires c.orderId !in rows
    ensures CountedDays(rows[c.orderId := c]) == CountedDays(rows) + (if c.state == Completed then {c.day} else {})
  {
    var rows' := rows[c.orderId := c];
    forall day | day in CountedDays(rows) ensures day in CountedDays(rows') {
      var k :| k in rows && rows[k].state == Completed && rows[k].day == day;
      assert rows'[k] == rows[k];
    }
    if c.state == Completed {
      assert rows'[c.orderId] == c;
      assert c.day in CountedDays(rows');
    }
    forall day | day in CountedDays(rows')
      ensures day in CountedDays(rows) + (if c.state == Completed then {c.day} else {})
    {
      var k :| k in rows' && rows'[k].state == Completed && rows'[k].day == day;
      if k != c.orderId {
        assert rows[k] == rows'[k];
      }
    }
  }
}
