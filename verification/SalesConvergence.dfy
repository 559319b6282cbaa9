/**
 Convergence of the sales projection under duplicated and reordered delivery.

 A deletion is terminal even for a newer completion, so the outcome of a set of events is
 NOT in general independent of the order of delivery. This module proves exactly when it
 is: when each order has one strictly newest event and none of the others is a deletion.
 */
module SalesConvergence {
  import opened Options
  import opened SalesContributions
  import opened SalesProjection

  /** Every event arrives at least once, in any order, with any repetition, and nothing else arrives. */
  ghost predicate Covers(deliveries: seq<Contribution>, events: set<Contribution>) {
    forall c :: c in deliveries <==> c in events
  }

  /** The row an order ends with when a fresh projection receives the deliveries. */
  function Final(deliveries: seq<Contribution>, orderId: int): Option<Contribution> {
    Current(Run(Tables(map[], map[]), deliveries).rows, orderId)
  }

  /** The event that decides its order: strictly newer than all others, none of which deletes. */
  ghost predicate Decides(events: set<Contribution>, top: Contribution) {
    && top in events
    && forall c :: c in events && c.orderId == top.orderId && c != top ==> c.revision < top.revision && c.state != Deleted
  }

  ghost predicate Decided(events: set<Contribution>, orderId: int) {
    exists top :: Decides(events, top) && top.orderId == orderId
  }

  ghost predicate EveryOrderDecided(events: set<Contribution>) {
    forall c :: c in events ==> Decided(events, c.orderId)
  }

  /** The outcome does not depend on how the events were delivered. */
  ghost predicate Convergent(events: set<Contribution>) {
    forall a, b, orderId :: Covers(a, events) && Covers(b, events) ==> Final(a, orderId) == Final(b, orderId)
  }

  /** One more delivery changes only its own order's row. */
  lemma FinalStep(deliveries: seq<Contribution>, c: Contribution, orderId: int)
    ensures Final(deliveries + [c], orderId)
         == if c.orderId == orderId && ShouldApply(Final(deliveries, orderId), c) then Some(c) else Final(deliveries, orderId)
  {
    assert (deliveries + [c])[..|deliveries|] == deliveries;
  }

  lemma FinalUnfold(deliveries: seq<Contribution>, orderId: int)
    requires deliveries != []
    ensures var n := |deliveries| - 1; var before := Final(deliveries[..n], orderId);
            && (deliveries[n].orderId == orderId && ShouldApply(before, deliveries[n]) ==> Final(deliveries, orderId) == Some(deliveries[n]))
            && (!(deliveries[n].orderId == orderId && ShouldApply(before, deliveries[n])) ==> Final(deliveries, orderId) == before)
  {
    var n := |deliveries| - 1;
    assert deliveries == deliveries[..n] + [deliveries[n]];
    FinalStep(deliveries[..n], deliveries[n], orderId);
  }

  /** Whatever row an order ends with was delivered for it; an order never delivered has none. */
  lemma {:induction false} FinalWasDelivered(deliveries: seq<Contribution>, orderId: int)
    ensures Final(deliveries, orderId).Some? ==> Final(deliveries, orderId).value in deliveries && Final(deliveries, orderId).value.orderId == orderId
    ensures Final(deliveries, orderId).None? ==> forall c :: c in deliveries ==> c.orderId != orderId
  {
    if deliveries != [] {
      var n := |deliveries| - 1;
      FinalWasDelivered(deliveries[..n], orderId);
      FinalUnfold(deliveries, orderId);
      assert deliveries == deliveries[..n] + [deliveries[n]];
    }
  }

  /** A decided order ends with its deciding event once that event has been delivered, and not before. */
  lemma {:induction false} DecidedOutcome(events: set<Contribution>, top: Contribution, deliveries: seq<Contribution>)
    requires Decides(events, top)
    requires forall c :: c in deliveries ==> c in events
    ensures top in deliveries ==> Final(deliveries, top.orderId) == Some(top)
  {
    if deliveries != [] {
      var n := |deliveries| - 1;
      var last := deliveries[n];
      assert deliveries == deliveries[..n] + [last];
      assert last in deliveries;
      DecidedOutcome(events, top, deliveries[..n]);
      FinalUnfold(deliveries, top.orderId);
      FinalWasDelivered(deliveries[..n], top.orderId);
    }
  }

  /** A row that nothing later can replace stays, whatever is delivered after it. */
  lemma {:induction false} StuckOutcome(first: Contribution, rest: seq<Contribution>)
    requires forall c :: c in rest && c.orderId == first.orderId ==> !ShouldApply(Some(first), c)
    ensures Final([first] + rest, first.orderId) == Some(first)
  {
    if rest == [] {
      FinalStep([], first, first.orderId);
      assert [first] + rest == [] + [first];
    } else {
      var n := |rest| - 1;
      assert rest == rest[..n] + [rest[n]];
      assert rest[n] in rest;
      StuckOutcome(first, rest[..n]);
      assert [first] + rest == ([first] + rest[..n]) + [rest[n]];
      FinalStep([first] + rest[..n], rest[n], first.orderId);
    }
  }

  lemma DecidingEvent(events: set<Contribution>, c: Contribution) returns (top: Contribution)
    requires EveryOrderDecided(events) && c in events
    ensures Decides(events, top) && top.orderId == c.orderId
  {
    top :| Decides(events, top) && top.orderId == c.orderId;
  }

  /** Sufficient: with every order decided, all covering deliveries end alike. */
  lemma DecidedConverges(events: set<Contribution>)
    requires EveryOrderDecided(events)
    ensures Convergent(events)
  {
    hide Final;
    hide EveryOrderDecided;
    forall a, b, orderId | Covers(a, events) && Covers(b, events)
      ensures Final(a, orderId) == Final(b, orderId)
    {
      FinalWasDelivered(a, orderId);
      FinalWasDelivered(b, orderId);
      if exists c :: c in events && c.orderId == orderId {
        var c :| c in events && c.orderId == orderId;
        var top := DecidingEvent(events, c);
        DecidedOutcome(events, top, a);
        DecidedOutcome(events, top, b);
      }
    }
  }

  /** Among the events of one order one has the highest revision. */
  lemma {:induction false} Newest(events: set<Contribution>, orderId: int) returns (top: Contribution)
    requires exists c :: c in events && c.orderId == orderId
    ensures top in events && top.orderId == orderId
    ensures forall c :: c in events && c.orderId == orderId ==> c.revision <= top.revision
    decreases |events|
  {
    var c :| c in events && c.orderId == orderId;
    var rest := events - {c};
    if exists d :: d in rest && d.orderId == orderId {
      var t := Newest(rest, orderId);
      top := if c.revision <= t.revision then t else c;
      forall d | d in events && d.orderId == orderId ensures d.revision <= top.revision {
        assert d == c || d in rest;
      }
    } else {
      top := c;
      forall d | d in events && d.orderId == orderId ensures d.revision <= top.revision {
        assert d == c || d in rest;
      }
    }
  }

  /** Necessary: if some order is undecided, two covering deliveries end differently. */
  lemma ConvergentIsDecided(events: set<Contribution>)
    requires Convergent(events)
    ensures EveryOrderDecided(events)
  {
    var list := Enumerate(events);
    forall c | c in events ensures Decided(events, c.orderId) {
      var top := Newest(events, c.orderId);
      StuckOutcome(top, list);
      assert Covers([top] + list, events);
      forall d | d in events && d.orderId == top.orderId && d != top ensures d.revision < top.revision && d.state != Deleted {
        if d.revision >= top.revision || d.state == Deleted {
          StuckOutcome(d, list);
          assert Covers([d] + list, events);
          assert false;
        }
      }
      assert Decides(events, top);
    }
  }

  /** The projection converges on a set of events if and only if every order is decided. */
  lemma ConvergenceCondition(events: set<Contribution>)
    ensures Convergent(events) <==> EveryOrderDecided(events)
  {
    if EveryOrderDecided(events) { DecidedConverges(events); }
    if Convergent(events) { ConvergentIsDecided(events); }
  }

  lemma SameRows(a: Rows, b: Rows)
    requires forall k :: Current(a, k) == Current(b, k)
    ensures a == b
  {
    forall k ensures (k in a <==> k in b) && (k in a && k in b ==> a[k] == b[k]) {
      assert Current(a, k) == Current(b, k);
    }
  }

  /** Converging rows give converging days: only empty daily rows may differ, and they count as zero. */
  lemma ConvergentDays(events: set<Contribution>, a: seq<Contribution>, b: seq<Contribution>, day: int)
    requires EveryOrderDecided(events) && Covers(a, events) && Covers(b, events)
    ensures Run(Tables(map[], map[]), a).rows == Run(Tables(map[], map[]), b).rows
    ensures At(Run(Tables(map[], map[]), a).daily, day) == At(Run(Tables(map[], map[]), b).daily, day)
  {
    hide Run;
    hide Aggregate;
    DecidedConverges(events);
    var none := Tables(map[], map[]);
    EmptyAgrees();
    var ra, rb := Run(none, a).rows, Run(none, b).rows;
    forall k ensures Current(ra, k) == Current(rb, k) {
      assert Final(a, k) == Final(b, k);
    }
    SameRows(ra, rb);
    RunAgrees(none, a);
    RunAgrees(none, b);
    assert At(Run(none, a).daily, day) == Aggregate(ra, day);
    assert At(Run(none, b).daily, day) == Aggregate(rb, day);
  }

  /** A deletion that decides its order is never undone, whatever is delivered around it. */
  lemma DeletionNotResurrected(events: set<Contribution>, deletion: Contribution, deliveries: seq<Contribution>)
    requires Decides(events, deletion) && deletion.state == Deleted && Covers(deliveries, events)
    ensures Final(deliveries, deletion.orderId) == Some(deletion)
  {
    DecidedOutcome(events, deletion, deliveries);
  }

  /** The failing family's smallest member: a completion newer than a deletion of the same order. */
  lemma NewerCompletionDiverges()
    ensures var deletion := Contribution(1, 2, 0, 0, Deleted);
            var completion := Contribution(1, 3, 0, 100, Completed);
            && Final([deletion, completion], 1) == Some(deletion)
            && Final([completion, deletion], 1) == Some(completion)
            && !Convergent({deletion, completion})
  {
    var deletion := Contribution(1, 2, 0, 0, Deleted);
    var completion := Contribution(1, 3, 0, 100, Completed);
    StuckOutcome(deletion, [completion]);
    StuckOutcome(completion, [deletion]);
    assert [deletion] + [completion] == [deletion, completion];
    assert [completion] + [deletion] == [completion, deletion];
    assert Covers([deletion, completion], {deletion, completion});
    assert Covers([completion, deletion], {deletion, completion});
  }
}
