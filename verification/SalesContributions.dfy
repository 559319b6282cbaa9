/**
 The pure rules of the daily completed-sales projection: what one order contributes,
 when an incoming contribution replaces the stored one, and the per-day aggregate that
 the incrementally kept totals must always equal.

 Money is in minor units (the columns are Numeric with two decimals).
 */
module SalesContributions {
  import opened Options

  datatype State = Completed | Inactive | Deleted

  datatype Contribution = Contribution(orderId: int, revision: int, day: int, total: int, state: State) {
    function Count(): int {
      if state == Completed then 1 else 0
    }
  }

  /** A deletion is terminal; otherwise only a strictly newer revision replaces the row. */
  predicate ShouldApply(current: Option<Contribution>, incoming: Contribution) {
    current.None? || (current.value.state != Deleted && incoming.revision > current.value.revision)
  }

  datatype Totals = Totals(count: int, sales: int) {
    function Plus(other: Totals): Totals {
      Totals(count + other.count, sales + other.sales)
    }

    function Negated(): Totals {
      Totals(-count, -sales)
    }
  }

  const ZERO := Totals(0, 0)

  type Rows = map<int, Contribution>
  type Daily = map<int, Totals>

  /** Reconciliation treats an absent day as zero. */
  function At(daily: Daily, day: int): Totals {
    if day in daily then daily[day] else ZERO
  }

  /** What one stored contribution adds to one day. */
  function Share(c: Contribution, day: int): Totals {
    if c.state == Completed && c.day == day then Totals(1, c.total) else ZERO
  }

  function ShareOf(rows: Rows, orderId: int, day: int): Totals {
    if orderId in rows then Share(rows[orderId], day) else ZERO
  }

  /** The aggregate of a day recomputed from scratch. */
  ghost function Aggregate(rows: Rows, day: int): Totals
    decreases |rows|
  {
    if rows.Keys == {} then ZERO else
      var k := AnyOf(rows.Keys);
      Share(rows[k], day).Plus(Aggregate(rows - {k}, day))
  }

  /** Any order may be taken out first: the aggregate does not depend on the order of summing. */
  lemma {:induction false} AggregateWithout(rows: Rows, k: int, day: int)
    requires k in rows
    ensures Aggregate(rows, day) == Share(rows[k], day).Plus(Aggregate(rows - {k}, day))
    decreases |rows|
  {
    var first := AnyOf(rows.Keys);
    if first != k {
      assert k in rows - {first} && first in rows - {k};
      AggregateWithout(rows - {first}, k, day);
      AggregateWithout(rows - {k}, first, day);
      assert rows - {first} - {k} == rows - {k} - {first};
    }
  }

  /** Replacing one order's row moves exactly that order's share. */
  lemma {:induction false} AggregateStored(rows: Rows, c: Contribution, day: int)
    ensures Aggregate(rows[c.orderId := c], day).Plus(ShareOf(rows, c.orderId, day))
         == Aggregate(rows, day).Plus(Share(c, day))
  {
    var k := c.orderId;
    var stored := rows[k := c];
    assert stored - {k} == rows - {k};
    AggregateWithout(stored, k, day);
    if k in rows {
      AggregateWithout(rows, k, day);
    } else {
      assert rows - {k} == rows;
    }
  }

  /** Two row sets whose orders contribute alike have the same totals, whatever their keys. */
  lemma {:induction false} AggregateDependsOnShares(a: Rows, b: Rows, day: int)
    requires forall k :: ShareOf(a, k, day) == ShareOf(b, k, day)
    ensures Aggregate(a, day) == Aggregate(b, day)
    decreases |a| + |b|
  {
    if a.Keys != {} {
      var k := AnyOf(a.Keys);
      DropBoth(a, b, k, day);
    } else if b.Keys != {} {
      var k := AnyOf(b.Keys);
      DropBoth(a, b, k, day);
    }
  }

  lemma {:induction false} DropBoth(a: Rows, b: Rows, k: int, day: int)
    requires k in a || k in b
    requires forall o :: ShareOf(a, o, day) == ShareOf(b, o, day)
    ensures Aggregate(a, day) == Aggregate(b, day)
    decreases |a| + |b|, 0
  {
    var a', b' := a - {k}, b - {k};
    forall o ensures ShareOf(a', o, day) == ShareOf(b', o, day) {
      assert ShareOf(a, o, day) == ShareOf(b, o, day);
    }
    assert k !in a ==> a' == a;
    assert k !in b ==> b' == b;
    if k in a { AggregateWithout(a, k, day); }
    if k in b { AggregateWithout(b, k, day); }
    assert ShareOf(a, k, day) == ShareOf(b, k, day);
    assert |a'| + |b'| < |a| + |b| by {
      assert k in a ==> |a'| == |a| - 1 by { if k in a { assert a'.Keys == a.Keys - {k}; assert |a'.Keys| == |a.Keys| - 1; } }
      assert k in b ==> |b'| == |b| - 1 by { if k in b { assert b'.Keys == b.Keys - {k}; assert |b'.Keys| == |b.Keys| - 1; } }
    }
    AggregateDependsOnShares(a', b', day);
  }

  /** The table constraints: a total is never negative, and only a completed order has one. */
  predicate RowOk(c: Contribution) {
    c.total >= 0 && (c.state != Completed ==> c.total == 0)
  }

  lemma {:induction false} AggregateNonNegative(rows: Rows, day: int)
    requires forall k :: k in rows ==> RowOk(rows[k])
    ensures Aggregate(rows, day).count >= 0 && Aggregate(rows, day).sales >= 0
    decreases |rows|
  {
    if rows.Keys != {} {
      AggregateNonNegative(rows - {AnyOf(rows.Keys)}, day);
    }
  }
}
