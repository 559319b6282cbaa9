/**
 The whole sales path: order commands that move an order through its lifecycle and append
 completion and deletion facts to the outbox, deliveries of those facts to the projection in
 any order and any number of times, and maintenance rebuilds at any moment.

 The order service is what makes the projection converge: it never appends a completion after
 a deletion. From that follows the end-to-end promise: once everything appended has been
 delivered, the projection equals the authoritative orders on every day.
 */
module SalesSystem {
  import opened Options
  import opened SalesContributions
  import opened SalesProjection
  import opened SalesConvergence

  datatype Status = DRAFT | SUBMITTED | ACCEPTED | PREPARING | READY | COMPLETED | CANCELLED

  /** The lifecycle table; repeating the current status is allowed and changes nothing. */
  predicate MayBecome(current: Status, requested: Status) {
    requested == current ||
    match current
    case DRAFT => requested == SUBMITTED || requested == CANCELLED
    case SUBMITTED => requested == ACCEPTED || requested == CANCELLED
    case ACCEPTED => requested == PREPARING || requested == CANCELLED
    case PREPARING => requested == READY || requested == CANCELLED
    case READY => requested == COMPLETED || requested == CANCELLED
    case COMPLETED => false
    case CANCELLED => false
  }

  datatype Order = Order(status: Status, revision: int, day: int, total: int)

  datatype Command =
    | Create(id: int, day: int, total: int)
    | Update(id: int, status: Option<Status>, newTotal: Option<int>, otherFieldsChange: bool)
    | Delete(id: int)
    | Deliver(event: Contribution)
    | Rebuild(deletions: seq<Contribution>)

  /**
   `issued` holds every order id ever used (ids come from a sequence), `seen` the facts that have
   been delivered at least once, and `unseeded` the orders that were already completed when the
   outbox was introduced and that no rebuild has seeded yet.
   */
  datatype World = World(
    orders: map<int, Order>,
    outbox: set<Contribution>,
    tables: Tables,
    issued: set<int>,
    seen: set<Contribution>,
    unseeded: set<int>)

  function Completion(id: int, o: Order): Contribution {
    Contribution(id, o.revision, o.day, o.total, Completed)
  }

  function Deletion(id: int, o: Order): Contribution {
    Contribution(id, o.revision + 1, o.day, 0, Deleted)
  }

  /** The event that tells the projection of a completion or a deletion, as the order service fills it in. */
  function CompletedEvent(id: int, o: Order): Event {
    OrderCompleted(id, o.revision, o.day, o.total)
  }

  function DeletedEvent(id: int, o: Order): Event {
    OrderDeleted(id, o.revision + 1, o.day)
  }

  /** The consumer reads back exactly the fact the order service appended. */
  lemma EventsCarryFacts(id: int, o: Order)
    ensures Incoming(CompletedEvent(id, o)) == Completion(id, o) && Incoming(DeletedEvent(id, o)) == Deletion(id, o)
  {
  }

  /** What a live order contributes. */
  function Standing(id: int, o: Order): Contribution {
    if o.status == COMPLETED then Completion(id, o) else Contribution(id, o.revision, o.day, 0, Inactive)
  }

  function Live(orders: map<int, Order>): Rows {
    map id | id in orders :: Standing(id, orders[id])
  }

  /** The authoritative query for one day: how many live orders are completed, and the sum of their totals. */
  ghost function OrderTotals(orders: map<int, Order>, day: int): Totals
    decreases |orders|
  {
    if orders.Keys == {} then ZERO else
      var id := AnyOf(orders.Keys);
      var rest := OrderTotals(orders - {id}, day);
      if orders[id].status == COMPLETED && orders[id].day == day then Totals(rest.count + 1, rest.sales + orders[id].total) else rest
  }

  lemma {:induction false} LiveTotals(orders: map<int, Order>, day: int)
    ensures Aggregate(Live(orders), day) == OrderTotals(orders, day)
    decreases |orders|
  {
    hide Aggregate;
    if orders.Keys == {} {
      NoRows(Live(orders), day);
    } else {
      var id := AnyOf(orders.Keys);
      AggregateWithout(Live(orders), id, day);
      assert Live(orders) - {id} == Live(orders - {id});
      LiveTotals(orders - {id}, day);
    }
  }

  lemma NoRows(rows: Rows, day: int)
    requires rows.Keys == {}
    ensures Aggregate(rows, day) == ZERO
  {
  }

  /** These are the totals the authoritative query returns. */
  ghost predicate Authoritative(totals: Daily, orders: map<int, Order>) {
    forall day :: At(totals, day) == OrderTotals(orders, day)
  }

  lemma LiveAuthoritative(totals: Daily, orders: map<int, Order>)
    ensures Authoritative(totals, orders) <==> Totalled(totals, Live(orders))
  {
    hide Aggregate, OrderTotals, Live, At;
    forall day
      ensures Aggregate(Live(orders), day) == OrderTotals(orders, day)
    {
      LiveTotals(orders, day);
    }
    if Authoritative(totals, orders) {
      forall day
        ensures At(totals, day) == Aggregate(Live(orders), day)
      {
        assert At(totals, day) == OrderTotals(orders, day);
      }
    }
    if Totalled(totals, Live(orders)) {
      forall day
        ensures At(totals, day) == OrderTotals(orders, day)
      {
        assert At(totals, day) == Aggregate(Live(orders), day);
      }
    }
  }

  /** Deletion facts replace an older live contribution or fill the place of a removed order. */
  function WithDeletions(values: Rows, deletions: seq<Contribution>): Rows
    decreases |deletions|
  {
    if deletions == [] then values else
      var d := deletions[0];
      var next := if d.orderId !in values || d.revision > values[d.orderId].revision then values[d.orderId := d] else values;
      WithDeletions(next, deletions[1..])
  }

  /** The baseline query's loop over the retained deletion facts. */
  method CollectBaseline(orders: map<int, Order>, deletions: seq<Contribution>) returns (values: Rows)
    ensures values == WithDeletions(Live(orders), deletions)
  {
    values := Live(orders);
    for i := 0 to |deletions|
      invariant WithDeletions(values, deletions[i..]) == WithDeletions(Live(orders), deletions)
    {
      var d := deletions[i];
      assert deletions[i..][0] == d && deletions[i..][1..] == deletions[i + 1..];
      if d.orderId !in values || d.revision > values[d.orderId].revision {
        values := values[d.orderId := d];
      }
    }
  }

  ghost predicate ListsDeletions(outbox: set<Contribution>, deletions: seq<Contribution>) {
    forall d :: d in deletions <==> d in outbox && d.state == Deleted
  }

  /** An update either fails as a whole or changes the row, its revision and perhaps the outbox together. */
  function Updated(w: World, id: int, status: Option<Status>, total: Option<int>, otherFieldsChange: bool): World
    requires id in w.orders
  {
    var o := w.orders[id];
    var requested := if status.Some? then status.value else o.status;
    if !MayBecome(o.status, requested) || (total.Some? && (requested != DRAFT || total.value < 0)) then w else
      var amount := if total.Some? then total.value else o.total;
      var changed := requested != o.status || amount != o.total || otherFieldsChange;
      var o' := Order(requested, if changed then o.revision + 1 else o.revision, o.day, amount);
      w.(orders := w.orders[id := o'],
         outbox := if requested != o.status && requested == COMPLETED then w.outbox + {Completion(id, o')} else w.outbox)
  }

  /** A rebuild that is refused leaves everything as it was. */
  ghost predicate RebuiltTo(w: World, deletions: seq<Contribution>, w': World) {
    var facts := WithDeletions(Live(w.orders), deletions);
    if !Rebuildable(w.tables.rows, facts) then w' == w else
      && w'.tables.rows == w.tables.rows + facts
      && Agrees(w'.tables) && w'.tables.daily.Keys == CountedDays(w'.tables.rows)
      && w' == w.(tables := w'.tables, seen := w.outbox, unseeded := {})
  }

  ghost predicate Next(w: World, command: Command, w': World) {
    match command
    case Create(id, day, total) =>
      id !in w.issued && total >= 0 &&
      w' == w.(orders := w.orders[id := Order(DRAFT, 1, day, total)], issued := w.issued + {id})
    case Update(id, status, total, otherFieldsChange) =>
      id in w.orders && w' == Updated(w, id, status, total, otherFieldsChange)
    case Delete(id) =>
      id in w.orders &&
      w' == w.(orders := w.orders - {id}, outbox := w.outbox + {Deletion(id, w.orders[id])})
    case Deliver(event) =>
      event in w.outbox && w' == w.(tables := Applied(w.tables, event), seen := w.seen + {event})
    case Rebuild(deletions) =>
      ListsDeletions(w.outbox, deletions) && RebuiltTo(w, deletions, w')
  }

  /** Orders may predate the outbox; the projection and the outbox start empty. */
  ghost predicate Init(w: World) {
    && w.outbox == {} && w.tables == Tables(map[], map[]) && w.seen == {}
    && w.issued == w.orders.Keys
    && (forall id :: id in w.orders ==> w.orders[id].revision >= 1 && w.orders[id].total >= 0)
    && w.unseeded == set id | id in w.orders && w.orders[id].status == COMPLETED
  }

  ghost predicate Behaviour(worlds: seq<World>, commands: seq<Command>) {
    && |worlds| == |commands| + 1
    && Init(worlds[0])
    && forall i :: 0 <= i < |commands| ==> Next(worlds[i], commands[i], worlds[i + 1])
  }

  // ---------------------------------------------------------------------------
  // What every command keeps

  ghost predicate OrdersOk(w: World) {
    forall id :: id in w.orders ==> id in w.issued && w.orders[id].revision >= 1 && w.orders[id].total >= 0
  }

  /** Facts of a live order describe its final state; a removed order has its deletion fact. */
  ghost predicate FactsOk(w: World) {
    && (forall e :: e in w.outbox ==> e.orderId in w.issued && RowOk(e) && e.state != Inactive)
    && (forall e :: e in w.outbox && e.orderId in w.orders ==>
          var o := w.orders[e.orderId];
          e.state == Completed && o.status == COMPLETED && e.total == o.total && e.day == o.day && e.revision <= o.revision)
    && (forall id :: id in w.issued && id !in w.orders ==> exists d :: d in w.outbox && d.orderId == id && d.state == Deleted)
  }

  /** At most one completion and one deletion per order, the deletion newer. */
  ghost predicate FactsOrdered(outbox: set<Contribution>) {
    forall e, f :: e in outbox && f in outbox && e.orderId == f.orderId && e != f ==>
      (e.state == Deleted && f.state == Completed && f.revision < e.revision) || (f.state == Deleted && e.state == Completed && e.revision < f.revision)
  }

  ghost predicate HasCompletion(outbox: set<Contribution>, id: int) {
    exists e :: e in outbox && e.orderId == id && e.state == Completed
  }

  ghost predicate RowOfLive(w: World, id: int) {
    id in w.orders && id in w.tables.rows ==>
      var o, r := w.orders[id], w.tables.rows[id];
      && r.state != Deleted && r.revision <= o.revision && r.day == o.day
      && (r.state == Completed ==> o.status == COMPLETED && r.total == o.total)
      && (r.state == Inactive ==> forall e :: e in w.outbox && e.orderId == id ==> r.revision < e.revision)
  }

  ghost predicate RowOfRemoved(w: World, id: int) {
    id !in w.orders && id in w.tables.rows ==>
      var r := w.tables.rows[id];
      forall d :: d in w.outbox && d.orderId == id && d.state == Deleted ==> r == d || (r.state != Deleted && r.revision < d.revision)
  }

  ghost predicate RowsFollow(w: World) {
    forall id :: (id in w.tables.rows ==> id in w.issued) && RowOfLive(w, id) && RowOfRemoved(w, id)
  }

  /** A delivered fact has left its mark: the row is at or past it. */
  ghost predicate SeenMarked(w: World) {
    forall e :: e in w.seen ==>
      && e in w.outbox && e.orderId in w.tables.rows
      && (w.tables.rows[e.orderId].state == Deleted || e.revision <= w.tables.rows[e.orderId].revision)
  }

  ghost predicate CompletionsKnown(w: World) {
    forall id :: id in w.orders && w.orders[id].status == COMPLETED && id !in w.unseeded ==>
      HasCompletion(w.outbox, id) || (id in w.tables.rows && w.tables.rows[id].state == Completed)
  }

  ghost predicate Inv(w: World) {
    Sound(w.tables) && OrdersOk(w) && FactsOk(w) && FactsOrdered(w.outbox) && RowsFollow(w) && SeenMarked(w) && CompletionsKnown(w)
  }

  lemma InitInv(w: World)
    requires Init(w)
    ensures Inv(w)
  {
    EmptyAgrees();
  }

  lemma CreateInv(w: World, command: Command, w': World)
    requires Inv(w) && command.Create? && Next(w, command, w')
    ensures Inv(w')
  {
    hide Agrees;
    assert command.id !in w.tables.rows;
    assert forall id :: RowOfLive(w, id) && RowOfRemoved(w, id);
    assert forall id :: HasCompletion(w.outbox, id) ==> HasCompletion(w'.outbox, id);
  }

  /** An edit that neither completes the order nor touches a completed order's total. */
  lemma EditInv(w: World, id: int, o': Order, w': World)
    requires Inv(w) && id in w.orders && w' == w.(orders := w.orders[id := o'])
    requires o'.day == w.orders[id].day && o'.revision >= w.orders[id].revision && o'.total >= 0
    requires o'.status == COMPLETED <==> w.orders[id].status == COMPLETED
    requires o'.status == COMPLETED ==> o'.total == w.orders[id].total
    ensures Inv(w')
  {
    hide Agrees;
    assert forall k :: RowOfLive(w, k) && RowOfRemoved(w, k);
    assert forall k :: HasCompletion(w.outbox, k) ==> HasCompletion(w'.outbox, k);
  }

  lemma CompleteFacts(w: World, id: int, o': Order, w': World)
    requires Inv(w) && id in w.orders && w.orders[id].status != COMPLETED
    requires o' == Order(COMPLETED, w.orders[id].revision + 1, w.orders[id].day, w.orders[id].total)
    requires w' == w.(orders := w.orders[id := o'], outbox := w.outbox + {Completion(id, o')})
    ensures FactsOk(w') && FactsOrdered(w'.outbox) && HasCompletion(w'.outbox, id)
    ensures forall k :: HasCompletion(w.outbox, k) ==> HasCompletion(w'.outbox, k)
  {
    hide Sound, RowsFollow, SeenMarked, CompletionsKnown;
    assert forall e :: e in w.outbox ==> e.orderId != id;
    assert Completion(id, o') in w'.outbox;
    assert forall e :: e in w.outbox ==> e in w'.outbox;
  }

  /** The one transition that appends a completion: no fact of this order can exist yet. */
  lemma CompleteInv(w: World, id: int, o': Order, w': World)
    requires Inv(w) && id in w.orders && w.orders[id].status != COMPLETED
    requires o' == Order(COMPLETED, w.orders[id].revision + 1, w.orders[id].day, w.orders[id].total)
    requires w' == w.(orders := w.orders[id := o'], outbox := w.outbox + {Completion(id, o')})
    ensures Inv(w')
  {
    CompleteFacts(w, id, o', w');
    assert forall e :: e in w.outbox ==> e.orderId != id;
    hide Sound, FactsOk, FactsOrdered, HasCompletion;
    forall k ensures RowOfLive(w', k) && RowOfRemoved(w', k) {
      assert RowOfLive(w, k) && RowOfRemoved(w, k);
    }
  }

  lemma UpdateInv(w: World, command: Command, w': World)
    requires Inv(w) && command.Update? && Next(w, command, w')
    ensures Inv(w')
  {
    var id := command.id;
    assert OrdersOk(w);
    hide Inv;
    if w' != w {
      var o, o' := w.orders[id], w'.orders[id];
      if o'.status == COMPLETED && o.status != COMPLETED {
        CompleteInv(w, id, o', w');
      } else {
        EditInv(w, id, o', w');
      }
    }
  }

  lemma DeleteInv(w: World, command: Command, w': World)
    requires Inv(w) && command.Delete? && Next(w, command, w')
    ensures Inv(w')
  {
    DeleteFacts(w, command, w');
    DeleteRows(w, command, w');
    hide Sound, FactsOk, FactsOrdered, HasCompletion, RowsFollow;
  }

  lemma DeleteRows(w: World, command: Command, w': World)
    requires Inv(w) && command.Delete? && Next(w, command, w')
    ensures RowsFollow(w')
  {
    DeleteFacts(w, command, w');
    hide Sound, FactsOrdered, HasCompletion, SeenMarked, CompletionsKnown;
    forall id
      ensures (id in w'.tables.rows ==> id in w'.issued) && RowOfLive(w', id) && RowOfRemoved(w', id)
    {
      assert RowOfLive(w, id) && RowOfRemoved(w, id);
    }
  }

  lemma DeleteFacts(w: World, command: Command, w': World)
    requires Inv(w) && command.Delete? && Next(w, command, w')
    ensures FactsOk(w') && FactsOrdered(w'.outbox)
    ensures forall id :: HasCompletion(w.outbox, id) ==> HasCompletion(w'.outbox, id)
    ensures forall e :: e in w.outbox ==> e in w'.outbox
  {
    hide Sound, RowsFollow, SeenMarked, CompletionsKnown;
    var d := Deletion(command.id, w.orders[command.id]);
    assert d in w'.outbox;
    assert forall e :: e in w.outbox ==> e in w'.outbox;
  }

  lemma AcceptRowsFollow(w: World, c: Contribution, w': World)
    requires Inv(w) && c in w.outbox && ShouldApply(Current(w.tables.rows, c.orderId), c)
    requires w' == w.(tables := w'.tables, seen := w.seen + {c})
    requires w'.tables.rows == w.tables.rows[c.orderId := c]
    ensures RowsFollow(w')
  {
    hide Sound;
    forall id ensures (id in w'.tables.rows ==> id in w'.issued) && RowOfLive(w', id) && RowOfRemoved(w', id) {
      assert RowOfLive(w, id) && RowOfRemoved(w, id);
    }
  }

  lemma AcceptInv(w: World, c: Contribution, w': World)
    requires Inv(w) && c in w.outbox && ShouldApply(Current(w.tables.rows, c.orderId), c)
    requires w' == w.(tables := Replaced(w.tables, c), seen := w.seen + {c})
    ensures Inv(w')
  {
    ReplacedAgrees(w.tables, c);
    AcceptRowsFollow(w, c, w');
    hide Agrees, RowsFollow, FactsOrdered;
    assert c.orderId in w.orders ==> c.state == Completed;
  }

  lemma SkipInv(w: World, c: Contribution, w': World)
    requires Inv(w) && c in w.outbox && !ShouldApply(Current(w.tables.rows, c.orderId), c)
    requires w' == w.(seen := w.seen + {c})
    ensures Inv(w')
  {
    hide Agrees, FactsOrdered;
    forall id ensures RowOfLive(w', id) && RowOfRemoved(w', id) {
      assert RowOfLive(w, id) && RowOfRemoved(w, id);
    }
    assert forall id :: HasCompletion(w.outbox, id) ==> HasCompletion(w'.outbox, id);
  }

  lemma DeliverInv(w: World, command: Command, w': World)
    requires Inv(w) && command.Deliver? && Next(w, command, w')
    ensures Inv(w')
  {
    hide Inv;
    if ShouldApply(Current(w.tables.rows, command.event.orderId), command.event) {
      AcceptInv(w, command.event, w');
    } else {
      SkipInv(w, command.event, w');
    }
  }

  /** What the deletion facts make of the live rows, order by order. */
  lemma {:induction false} WithDeletionsAt(values: Rows, deletions: seq<Contribution>, id: int)
    requires forall d, e :: d in deletions && e in deletions && d.orderId == e.orderId ==> d == e
    ensures id in values && (forall d :: d in deletions ==> d.orderId != id) ==>
              id in WithDeletions(values, deletions) && WithDeletions(values, deletions)[id] == values[id]
    ensures forall d :: d in deletions && d.orderId == id && (id in values ==> values[id] == d || values[id].revision < d.revision) ==>
              id in WithDeletions(values, deletions) && WithDeletions(values, deletions)[id] == d
    ensures id !in values && (forall d :: d in deletions ==> d.orderId != id) ==> id !in WithDeletions(values, deletions)
    decreases |deletions|
  {
    if deletions != [] {
      var d := deletions[0];
      assert d in deletions;
      assert forall e :: e in deletions[1..] ==> e in deletions;
      assert forall e :: e in deletions ==> e == d || e in deletions[1..];
      var next := if d.orderId !in values || d.revision > values[d.orderId].revision then values[d.orderId := d] else values;
      WithDeletionsAt(next, deletions[1..], id);
    }
  }

  /** Under the invariant the baseline is the live orders and the removed orders' deletions. */
  lemma BaselineAt(w: World, deletions: seq<Contribution>, id: int)
    requires Inv(w) && ListsDeletions(w.outbox, deletions)
    ensures var facts := WithDeletions(Live(w.orders), deletions);
            && (id in facts <==> id in w.issued)
            && (id in w.orders ==> facts[id] == Standing(id, w.orders[id]))
            && (id in w.issued && id !in w.orders ==> facts[id] in w.outbox && facts[id].state == Deleted && facts[id].orderId == id)
  {
    hide Sound, RowsFollow, SeenMarked, CompletionsKnown, WithDeletions;
    forall d, e | d in deletions && e in deletions && d.orderId == e.orderId ensures d == e {
      assert d in w.outbox && e in w.outbox;
    }
    WithDeletionsAt(Live(w.orders), deletions, id);
    if id in w.issued && id !in w.orders {
      var d :| d in w.outbox && d.orderId == id && d.state == Deleted;
      assert d in deletions;
    }
  }

  ghost predicate BaselineOf(w: World, facts: Rows) {
    && facts.Keys == w.issued
    && (forall id :: id in w.orders ==> id in facts && facts[id] == Standing(id, w.orders[id]))
    && (forall id :: id in facts && id !in w.orders ==> facts[id] in w.outbox && facts[id].state == Deleted && facts[id].orderId == id)
  }

  lemma BaselineHolds(w: World, deletions: seq<Contribution>)
    requires Inv(w) && ListsDeletions(w.outbox, deletions)
    ensures BaselineOf(w, WithDeletions(Live(w.orders), deletions))
  {
    var facts := WithDeletions(Live(w.orders), deletions);
    forall id
      ensures (id in facts <==> id in w.issued)
      ensures id in w.orders ==> id in facts && facts[id] == Standing(id, w.orders[id])
      ensures id in facts && id !in w.orders ==> facts[id] in w.outbox && facts[id].state == Deleted && facts[id].orderId == id
    {
      assert OrdersOk(w);
      BaselineAt(w, deletions, id);
    }
  }

  /** In no reachable world does the rebuild find a counted order without its producer fact. */
  lemma RebuildNeverRefused(w: World, deletions: seq<Contribution>)
    requires Inv(w) && ListsDeletions(w.outbox, deletions)
    ensures Rebuildable(w.tables.rows, WithDeletions(Live(w.orders), deletions))
    ensures RowsOk(WithDeletions(Live(w.orders), deletions))
    ensures w.tables.rows + WithDeletions(Live(w.orders), deletions) == WithDeletions(Live(w.orders), deletions)
  {
    var facts := WithDeletions(Live(w.orders), deletions);
    BaselineHolds(w, deletions);
    forall id | id in w.tables.rows ensures id in facts {
      assert id in w.issued;
    }
    forall id | id in facts ensures RowOk(facts[id]) && facts[id].orderId == id {
      if id in w.orders {
        assert facts[id] == Standing(id, w.orders[id]);
      }
    }
    assert w.tables.rows + facts == facts;
  }

  lemma RebuiltRowsFollow(w: World, facts: Rows, w': World)
    requires Inv(w) && BaselineOf(w, facts)
    requires w' == w.(tables := w'.tables, seen := w.outbox, unseeded := {}) && w'.tables.rows == facts
    ensures RowsFollow(w') && SeenMarked(w')
  {
    hide Sound, SeenMarked, CompletionsKnown, RowsFollow;
    forall id ensures RowOfLive(w', id) && RowOfRemoved(w', id) && (id in facts ==> id in w.issued) {
    }
    forall e | e in w'.seen
      ensures e.orderId in facts && (facts[e.orderId].state == Deleted || e.revision <= facts[e.orderId].revision)
    {
      assert e.orderId in w.issued;
    }
    SeenMarkedFrom(w');
    RowsFollowFrom(w');
  }

  lemma SeenMarkedFrom(w: World)
    requires forall e :: e in w.seen ==>
      && e in w.outbox && e.orderId in w.tables.rows
      && (w.tables.rows[e.orderId].state == Deleted || e.revision <= w.tables.rows[e.orderId].revision)
    ensures SeenMarked(w)
  {
  }

  lemma RowsFollowFrom(w: World)
    requires forall id :: RowOfLive(w, id) && RowOfRemoved(w, id) && (id in w.tables.rows ==> id in w.issued)
    ensures RowsFollow(w)
  {
  }

  lemma RebuildInv(w: World, command: Command, w': World)
    requires Inv(w) && command.Rebuild? && Next(w, command, w')
    ensures Inv(w')
    ensures w'.seen == w.outbox && w'.unseeded == {} && w'.outbox == w.outbox && w'.orders == w.orders
  {
    var facts := WithDeletions(Live(w.orders), command.deletions);
    RebuildNeverRefused(w, command.deletions);
    BaselineHolds(w, command.deletions);
    RebuiltRowsFollow(w, facts, w');
    hide WithDeletions, Agrees, RowsFollow, SeenMarked;
  }

  lemma NextInv(w: World, command: Command, w': World)
    requires Inv(w) && Next(w, command, w')
    ensures Inv(w')
  {
    hide Inv, Next;
    match command
    case Create(_, _, _) => CreateInv(w, command, w');
    case Update(_, _, _, _) => UpdateInv(w, command, w');
    case Delete(_) => DeleteInv(w, command, w');
    case Deliver(_) => DeliverInv(w, command, w');
    case Rebuild(_) => RebuildInv(w, command, w');
  }

  lemma {:induction false} BehaviourInv(worlds: seq<World>, commands: seq<Command>, i: nat)
    requires Behaviour(worlds, commands) && i < |worlds|
    ensures Inv(worlds[i])
  {
    if i == 0 {
      InitInv(worlds[0]);
    } else {
      BehaviourInv(worlds, commands, i - 1);
      assert Next(worlds[i - 1], commands[i - 1], worlds[i]);
      NextInv(worlds[i - 1], commands[i - 1], worlds[i]);
    }
  }

  // ---------------------------------------------------------------------------
  // The promises

  ghost predicate CaughtUp(w: World) {
    w.outbox <= w.seen && w.unseeded == {}
  }

  lemma CaughtUpShares(w: World, id: int, day: int)
    requires Inv(w) && CaughtUp(w)
    ensures ShareOf(w.tables.rows, id, day) == ShareOf(Live(w.orders), id, day)
  {
    hide Sound, FactsOrdered;
    assert RowOfLive(w, id) && RowOfRemoved(w, id);
    if id in w.orders {
      if w.orders[id].status == COMPLETED && HasCompletion(w.outbox, id) {
        var e :| e in w.outbox && e.orderId == id && e.state == Completed;
        assert e in w.seen;
      }
    } else if id in w.tables.rows {
      assert id in w.issued;
      var d :| d in w.outbox && d.orderId == id && d.state == Deleted;
      assert d in w.seen;
    }
  }

  lemma CaughtUpDays(w: World, day: int)
    requires Inv(w) && CaughtUp(w)
    ensures At(w.tables.daily, day) == Aggregate(Live(w.orders), day)
  {
    hide Aggregate;
    assert Sound(w.tables);
    forall id ensures ShareOf(w.tables.rows, id, day) == ShareOf(Live(w.orders), id, day) {
      CaughtUpShares(w, id, day);
    }
    AggregateDependsOnShares(w.tables.rows, Live(w.orders), day);
  }

  /**
   End to end: in every behaviour, whenever every appended fact has been delivered (and orders older
   than the outbox were seeded), each day's projected totals are those of the live completed orders, and
   reconciliation with the authoritative totals of those orders reports a match.
   */
  lemma CaughtUpMatchesOrders(worlds: seq<World>, commands: seq<Command>, i: nat, authoritative: Daily)
    requires Behaviour(worlds, commands) && i < |worlds| && CaughtUp(worlds[i])
    ensures Authoritative(worlds[i].tables.daily, worlds[i].orders)
    ensures Matches(worlds[i].tables.daily, authoritative) <==> Authoritative(authoritative, worlds[i].orders)
  {
    BehaviourInv(worlds, commands, i);
    CaughtUpMatches(worlds[i], authoritative);
  }

  lemma CaughtUpMatches(w: World, authoritative: Daily)
    requires Inv(w) && CaughtUp(w)
    ensures Authoritative(w.tables.daily, w.orders)
    ensures Matches(w.tables.daily, authoritative) <==> Authoritative(authoritative, w.orders)
  {
    hide Inv, CaughtUp, Matches, Live, Aggregate, Authoritative;
    LiveAuthoritative(w.tables.daily, w.orders);
    LiveAuthoritative(authoritative, w.orders);
    forall day
      ensures At(w.tables.daily, day) == Aggregate(Live(w.orders), day)
    {
      CaughtUpDays(w, day);
    }
    InStepMatches(w.tables.daily, authoritative, Live(w.orders));
  }

  /** The order service only ever appends sets of facts on which the projection converges. */
  lemma OutboxAlwaysConverges(worlds: seq<World>, commands: seq<Command>, i: nat)
    requires Behaviour(worlds, commands) && i < |worlds|
    ensures Convergent(worlds[i].outbox)
  {
    BehaviourInv(worlds, commands, i);
    OrderedFactsDecide(worlds[i].outbox);
    DecidedConverges(worlds[i].outbox);
  }

  lemma OrderedFactsDecide(outbox: set<Contribution>)
    requires FactsOrdered(outbox)
    ensures EveryOrderDecided(outbox)
  {
    forall c | c in outbox ensures Decided(outbox, c.orderId) {
      if d :| d in outbox && d.orderId == c.orderId && d.state == Deleted {
        assert Decides(outbox, d);
      } else {
        assert Decides(outbox, c);
      }
    }
  }

  /** A stored revision never falls and a tombstone is never lifted, not even by a rebuild. */
  lemma WatermarkNeverFalls(w: World, command: Command, w': World, id: int)
    requires Inv(w) && Next(w, command, w') && id in w.tables.rows
    ensures id in w'.tables.rows && w.tables.rows[id].revision <= w'.tables.rows[id].revision
    ensures w.tables.rows[id].state == Deleted ==> w'.tables.rows[id] == w.tables.rows[id]
  {
    if command.Rebuild? {
      RebuildNeverRefused(w, command.deletions);
      BaselineHolds(w, command.deletions);
      hide Sound, WithDeletions, SeenMarked, CompletionsKnown;
      assert RowOfLive(w, id) && RowOfRemoved(w, id);
    }
  }

  // ---------------------------------------------------------------------------
  // The life of one order

  function Stage(status: Status): nat {
    match status
    case DRAFT => 0
    case SUBMITTED => 1
    case ACCEPTED => 2
    case PREPARING => 3
    case READY => 4
    case COMPLETED => 5
    case CANCELLED => 6
  }

  /** An order that is neither completed nor cancelled can be cancelled or move on by one stage, and nothing else. */
  lemma LifecycleIs(current: Status, requested: Status)
    ensures MayBecome(current, requested) <==>
      || requested == current
      || (Stage(current) < 5 && (requested == CANCELLED || Stage(requested) == Stage(current) + 1))
  {
  }

  /**
   What any command may do to an order that exists: its status follows the lifecycle, its day is fixed, its
   total is fixed once it has left draft, its revision counts its changes, and the outbox gains its
   completion, with its own figures, exactly when it becomes completed.
   */
  lemma OrderStep(w: World, command: Command, w': World, id: int)
    requires OrdersOk(w) && Next(w, command, w') && id in w.issued && id in w'.orders
    ensures id in w.orders && id in w'.issued
    ensures var o, o' := w.orders[id], w'.orders[id];
            && MayBecome(o.status, o'.status) && o'.day == o.day && (o.status != DRAFT ==> o'.total == o.total)
            && o.revision <= o'.revision <= o.revision + 1 && (o' != o ==> o'.revision == o.revision + 1)
            && (if o.status != COMPLETED && o'.status == COMPLETED
                then w'.outbox == w.outbox + {Contribution(id, o'.revision, o'.day, o'.total, Completed)}
                else forall e :: e in w'.outbox && e !in w.outbox ==> e.orderId != id)
  {
    hide Applied;
  }

  /** A move the lifecycle allows takes effect, and one it does not changes nothing. */
  lemma UpdateTakesEffect(w: World, id: int, status: Status, w': World)
    requires id in w.orders && Next(w, Update(id, Some(status), None, false), w')
    ensures if MayBecome(w.orders[id].status, status) then id in w'.orders && w'.orders[id].status == status && w'.orders[id].total == w.orders[id].total
            else w' == w
  {
  }

  /** Only a draft's total can be edited, to anything that is not negative. */
  lemma TotalEdit(w: World, id: int, total: int, w': World)
    requires id in w.orders && Next(w, Update(id, None, Some(total), false), w')
    ensures if w.orders[id].status == DRAFT && total >= 0 then id in w'.orders && w'.orders[id].total == total && w'.orders[id].status == DRAFT
            else w' == w
  {
  }

  /** A deletion appends a fact newer than the order and removes it. */
  lemma DeleteAppends(w: World, id: int, w': World)
    requires id in w.orders && Next(w, Delete(id), w')
    ensures id !in w'.orders
    ensures w'.outbox == w.outbox + {Contribution(id, w.orders[id].revision + 1, w.orders[id].day, 0, Deleted)}
  {
  }

  lemma {:induction false} IssuedStays(worlds: seq<World>, commands: seq<Command>, a: nat, b: nat, id: int)
    requires Behaviour(worlds, commands) && a <= b < |worlds| && id in worlds[a].orders
    ensures id in worlds[b].issued
    decreases b
  {
    hide Next, Inv;
    if a < b {
      IssuedStays(worlds, commands, a, b - 1, id);
      IssuedGrows(worlds[b - 1], commands[b - 1], worlds[b]);
    } else {
      BehaviourInv(worlds, commands, a);
      OrdersAreIssued(worlds[a]);
    }
  }

  lemma IssuedGrows(w: World, command: Command, w': World)
    requires Next(w, command, w')
    ensures w.issued <= w'.issued
  {
    hide Applied;
  }

  lemma OrdersAreIssued(w: World)
    requires Inv(w)
    ensures OrdersOk(w) && w.orders.Keys <= w.issued
  {
    assert forall id :: id in w.orders.Keys ==> id in w.issued;
  }

  predicate AtStage(w: World, id: int, stage: nat) {
    id in w.orders && w.orders[id].status != CANCELLED && Stage(w.orders[id].status) == stage
  }

  /** No stage is skipped: between two states of an order, not cancelled in the later one, it was in every stage in between. */
  lemma {:induction false} EveryStagePassed(worlds: seq<World>, commands: seq<Command>, a: nat, b: nat, id: int, stage: nat) returns (k: nat)
    requires Behaviour(worlds, commands) && a <= b < |worlds| && id in worlds[a].orders && id in worlds[b].orders
    requires worlds[b].orders[id].status != CANCELLED
    requires Stage(worlds[a].orders[id].status) <= stage <= Stage(worlds[b].orders[id].status)
    ensures a <= k <= b && AtStage(worlds[k], id, stage)
    decreases b
  {
    hide Next, Inv;
    if Stage(worlds[b].orders[id].status) == stage {
      k := b;
    } else {
      assert a < b;
      IssuedStays(worlds, commands, a, b - 1, id);
      BehaviourInv(worlds, commands, b - 1);
      OrdersAreIssued(worlds[b - 1]);
      OrderStep(worlds[b - 1], commands[b - 1], worlds[b], id);
      LifecycleIs(worlds[b - 1].orders[id].status, worlds[b].orders[id].status);
      k := EveryStagePassed(worlds, commands, a, b - 1, id, stage);
    }
  }

  /** Once an order has left draft its total never changes, and its day never does. */
  lemma {:induction false} TotalIsFixed(worlds: seq<World>, commands: seq<Command>, a: nat, b: nat, id: int)
    requires Behaviour(worlds, commands) && a <= b < |worlds| && id in worlds[a].orders && id in worlds[b].orders
    ensures worlds[b].orders[id].day == worlds[a].orders[id].day && worlds[a].orders[id].revision <= worlds[b].orders[id].revision
    ensures worlds[a].orders[id].status != DRAFT ==> worlds[b].orders[id].total == worlds[a].orders[id].total && worlds[b].orders[id].status != DRAFT
    ensures worlds[b].orders[id] != worlds[a].orders[id] ==> worlds[a].orders[id].revision < worlds[b].orders[id].revision
    decreases b
  {
    hide Next, Inv;
    if a < b {
      IssuedStays(worlds, commands, a, b - 1, id);
      BehaviourInv(worlds, commands, b - 1);
      OrdersAreIssued(worlds[b - 1]);
      OrderStep(worlds[b - 1], commands[b - 1], worlds[b], id);
      LifecycleIs(worlds[b - 1].orders[id].status, worlds[b].orders[id].status);
      TotalIsFixed(worlds, commands, a, b - 1, id);
    }
  }

  /** Every order that comes into being during a run starts as a draft, so one that is completed has been through every stage. */
  lemma {:induction false} NewOrdersAreDrafts(worlds: seq<World>, commands: seq<Command>, a: nat, b: nat, id: int) returns (k: nat)
    requires Behaviour(worlds, commands) && a < b < |worlds| && id !in worlds[a].orders && id in worlds[b].orders
    ensures a < k <= b && id in worlds[k].orders && worlds[k].orders[id].status == DRAFT && worlds[k].orders[id].revision == 1
    ensures commands[k - 1].Create? && commands[k - 1].id == id
    ensures worlds[k].orders[id].day == commands[k - 1].day && worlds[k].orders[id].total == commands[k - 1].total
    decreases b
  {
    hide Inv;
    if id in worlds[b - 1].orders {
      k := NewOrdersAreDrafts(worlds, commands, a, b - 1, id);
    } else {
      k := b;
      hide Applied, Updated;
      assert Next(worlds[b - 1], commands[b - 1], worlds[b]);
      UpdateKeepsIds(worlds[b - 1], commands[b - 1]);
    }
  }

  lemma UpdateKeepsIds(w: World, command: Command)
    ensures command.Update? && command.id in w.orders ==>
              Updated(w, command.id, command.status, command.newTotal, command.otherFieldsChange).orders.Keys == w.orders.Keys
  {
  }
}
