/**
 The stock ledger of one restaurant: balances, the movements that explain them, and the commands that write
 both in one transaction under the restaurant's lock. Quantities count thousandths of a unit. A request
 fingerprint is taken to be injective, so a movement keeps the request itself.
 */
module StockLedger {
  import opened Options
  import LowStockEpisodes

  datatype Kind = Opening | Receipt | Waste | Count | Consumption

  datatype Payload =
    | Stock(ingredient: nat, kind: Kind, quantity: int, reason: string, expectedVersion: Option<int>)
    | Create(name: string, threshold: int, opening: int)

  datatype Movement = Movement(ingredient: nat, kind: Kind, delta: int, balanceAfter: int, versionAfter: int,
                               key: Option<nat>, request: Option<Payload>, order: Option<nat>)

  datatype Item = Item(name: string, threshold: int, active: bool, quantity: int, version: int)

  datatype Ledger = Ledger(items: map<nat, Item>, movements: seq<Movement>)

  datatype Refusal = NotFound | Invalid | KeyReused | Inactive | StaleCount | Insufficient | DuplicateName

  datatype Reply = Recorded | Replayed(movement: nat) | Refused(refusal: Refusal)

  predicate InRange(quantity: int) { 0 <= quantity <= LowStockEpisodes.MAX_QUANTITY }

  /** The movement this key already recorded: of the ingredient for stock, any opening for a creation. */
  function Earlier(movements: seq<Movement>, payload: Payload, key: nat): (found: Option<nat>)
    ensures found.Some? ==> found.value < |movements| && Answers(movements[found.value], payload, key)
    ensures found.None? ==> forall i :: 0 <= i < |movements| ==> !Answers(movements[i], payload, key)
  {
    if movements == [] then None else
      var last := |movements| - 1;
      if Answers(movements[last], payload, key) then Some(last) else Earlier(movements[..last], payload, key)
  }

  predicate Answers(m: Movement, payload: Payload, key: nat) {
    m.key == Some(key) && if payload.Stock? then m.ingredient == payload.ingredient else m.kind == Opening
  }

  function Posted(ledger: Ledger, m: Movement, item: Item): Ledger {
    Ledger(ledger.items[m.ingredient := item.(quantity := m.balanceAfter, version := m.versionAfter)], ledger.movements + [m])
  }

  predicate WellFormed(payload: Payload) {
    match payload
    case Stock(_, kind, quantity, reason, expectedVersion) =>
      && (kind == Receipt || kind == Waste || kind == Count)
      && !LowStockEpisodes.Blank(reason) && |reason| <= 500
      && InRange(quantity) && (kind != Count ==> quantity > 0)
      && (kind == Count ==> expectedVersion.Some?)
    case Create(name, threshold, opening) => !LowStockEpisodes.Blank(name) && InRange(opening) && InRange(threshold)
  }

  function DeltaOf(payload: Payload, balance: int): int
    requires payload.Stock?
  {
    if payload.kind == Count then payload.quantity - balance else if payload.kind == Receipt then payload.quantity else -payload.quantity
  }

  /** A manual stock command. */
  function Changed(ledger: Ledger, payload: Payload, key: nat): (Ledger, Reply)
    requires payload.Stock?
  {
    if payload.ingredient !in ledger.items then (ledger, Refused(NotFound))
    else if !WellFormed(payload) then (ledger, Refused(Invalid))
    else
      var item := ledger.items[payload.ingredient];
      var earlier := Earlier(ledger.movements, payload, key);
      if earlier.Some? then
        (ledger, if ledger.movements[earlier.value].request != Some(payload) then Refused(KeyReused) else Replayed(earlier.value))
      else if !item.active then (ledger, Refused(Inactive))
      else if payload.kind == Count && payload.expectedVersion != Some(item.version) then (ledger, Refused(StaleCount))
      else
        var after := item.quantity + DeltaOf(payload, item.quantity);
        if after < 0 then (ledger, Refused(Insufficient))
        else if !InRange(after) then (ledger, Refused(Invalid))
        else
          (Posted(ledger, Movement(payload.ingredient, payload.kind, DeltaOf(payload, item.quantity), after, item.version + 1,
                                   Some(key), Some(payload), None), item), Recorded)
  }

  /** A new ingredient with its opening movement; the database assigns `id`. */
  function Created(ledger: Ledger, payload: Payload, key: nat, id: nat): (Ledger, Reply)
    requires payload.Create? && id !in ledger.items
  {
    if !WellFormed(payload) then (ledger, Refused(Invalid))
    else
      var earlier := Earlier(ledger.movements, payload, key);
      if earlier.Some? then
        (ledger, if ledger.movements[earlier.value].request != Some(payload) then Refused(KeyReused) else Replayed(earlier.value))
      else if exists k :: k in ledger.items && ledger.items[k].name == payload.name then (ledger, Refused(DuplicateName))
      else
        (Posted(ledger, Movement(id, Opening, payload.opening, payload.opening, 1, Some(key), Some(payload), None),
                Item(payload.name, payload.threshold, true, 0, 0)), Recorded)
  }

  datatype Need = Need(ingredient: nat, required: int)

  /** An ingredient that is missing or archived has nothing available. */
  predicate Enough(ledger: Ledger, need: Need) {
    && need.ingredient in ledger.items && ledger.items[need.ingredient].active
    && 0 < need.required <= ledger.items[need.ingredient].quantity
  }

  predicate Taken(ledger: Ledger, order: nat, ingredient: nat) {
    exists i :: 0 <= i < |ledger.movements| && ledger.movements[i].order == Some(order) && ledger.movements[i].ingredient == ingredient
  }

  predicate Separate(needs: seq<Need>) {
    forall i, j :: 0 <= i < j < |needs| ==> needs[i].ingredient != needs[j].ingredient
  }

  /** Accepting an order takes everything it needs or nothing; taking twice violates the unique index. */
  function Consumed(ledger: Ledger, order: nat, needs: seq<Need>): (Ledger, Reply)
    requires Separate(needs)
  {
    if !(forall i :: 0 <= i < |needs| ==> Enough(ledger, needs[i])) then (ledger, Refused(Insufficient))
    else if exists i :: 0 <= i < |needs| && Taken(ledger, order, needs[i].ingredient) then (ledger, Refused(KeyReused))
    else (ConsumedEach(ledger, order, needs), Recorded)
  }

  function ConsumedOne(ledger: Ledger, order: nat, need: Need): Ledger
    requires Enough(ledger, need)
  {
    var item := ledger.items[need.ingredient];
    Posted(ledger, Movement(need.ingredient, Consumption, -need.required, item.quantity - need.required, item.version + 1, None, None, Some(order)), item)
  }

  function ConsumedEach(ledger: Ledger, order: nat, needs: seq<Need>): Ledger
    requires Separate(needs) && forall i :: 0 <= i < |needs| ==> Enough(ledger, needs[i])
    decreases |needs|
  {
    if needs == [] then ledger else
      var next := ConsumedOne(ledger, order, needs[0]);
      assert forall i :: 0 <= i < |needs| - 1 ==> Enough(next, needs[1..][i]) by {
        forall i | 0 <= i < |needs| - 1 ensures Enough(next, needs[1..][i]) { assert Enough(ledger, needs[i + 1]); }
      }
      ConsumedEach(next, order, needs[1..])
  }

  /** Editing an ingredient; stock must be gone before it is archived. */
  function Edited(ledger: Ledger, id: nat, name: string, threshold: int, active: bool): (Ledger, Reply) {
    if id !in ledger.items then (ledger, Refused(NotFound))
    else if LowStockEpisodes.Blank(name) then (ledger, Refused(Invalid))
    else if exists k :: k in ledger.items && k != id && ledger.items[k].name == name then (ledger, Refused(DuplicateName))
    else if !active && ledger.items[id].quantity > 0 then (ledger, Refused(Inactive))
    else if !InRange(threshold) then (ledger, Refused(Invalid))
    else (ledger.(items := ledger.items[id := ledger.items[id].(name := name, threshold := threshold, active := active)]), Recorded)
  }

  // ---------------------------------------------------------------------------
  // The movements explain the balance

  function Total(movements: seq<Movement>, id: nat): int {
    if movements == [] then 0 else
      var last := |movements| - 1;
      Total(movements[..last], id) + (if movements[last].ingredient == id then movements[last].delta else 0)
  }

  function Moves(movements: seq<Movement>, id: nat): nat {
    if movements == [] then 0 else
      var last := |movements| - 1;
      Moves(movements[..last], id) + (if movements[last].ingredient == id then 1 else 0)
  }

  lemma OneMore(movements: seq<Movement>, m: Movement)
    ensures forall id :: Total(movements + [m], id) == Total(movements, id) + (if m.ingredient == id then m.delta else 0)
    ensures forall id :: Moves(movements + [m], id) == Moves(movements, id) + (if m.ingredient == id then 1 else 0)
  {
    assert (movements + [m])[..|movements|] == movements;
  }

  /** The table's own checks. */
  predicate RowOk(m: Movement) {
    && (m.kind == Opening || m.kind == Receipt ==> m.delta >= 0) && (m.kind == Waste || m.kind == Consumption ==> m.delta < 0)
    && (m.kind == Consumption <==> m.order.Some?) && (m.key.Some? <==> m.order.None?) && (m.request.Some? <==> m.key.Some?)
    && InRange(m.balanceAfter) && m.versionAfter >= 1 && -LowStockEpisodes.MAX_QUANTITY <= m.delta <= LowStockEpisodes.MAX_QUANTITY
  }

  /** Each movement's balance and version are those of the movements up to and including it. */
  predicate Explained(movements: seq<Movement>, i: nat)
    requires i < |movements|
  {
    && RowOk(movements[i])
    && movements[i].balanceAfter == Total(movements[..i + 1], movements[i].ingredient)
    && movements[i].versionAfter == Moves(movements[..i + 1], movements[i].ingredient)
  }

  /** The two unique indexes. */
  predicate Distinct(a: Movement, b: Movement) {
    a.ingredient == b.ingredient ==> (a.key.Some? ==> a.key != b.key) && (a.order.Some? ==> a.order != b.order)
  }

  predicate ItemOk(movements: seq<Movement>, id: nat, item: Item) {
    && item.quantity == Total(movements, id) && item.version == Moves(movements, id)
    && InRange(item.quantity) && (!item.active ==> item.quantity == 0)
  }

  /**
   Every balance is the sum of its movements and every version their number; every movement records the
   running balance; no key and no order appears twice on an ingredient; archived ingredients hold no stock.
   */
  ghost predicate Inv(ledger: Ledger) {
    && (forall id :: id in ledger.items ==> ItemOk(ledger.movements, id, ledger.items[id]))
    && (forall i :: 0 <= i < |ledger.movements| ==> ledger.movements[i].ingredient in ledger.items && Explained(ledger.movements, i))
    && (forall i, j :: 0 <= i < j < |ledger.movements| ==> Distinct(ledger.movements[i], ledger.movements[j]))
  }

  lemma {:induction false} NeverMoved(movements: seq<Movement>, id: nat)
    requires forall i :: 0 <= i < |movements| ==> movements[i].ingredient != id
    ensures Total(movements, id) == 0 && Moves(movements, id) == 0
  {
    if movements != [] { NeverMoved(movements[..|movements| - 1], id); }
  }

  /** Posting a movement that continues its ingredient's chain keeps the ledger explained. */
  lemma PostedKeeps(ledger: Ledger, m: Movement, item: Item)
    requires Inv(ledger) && RowOk(m)
    requires m.ingredient in ledger.items ==> item.quantity == ledger.items[m.ingredient].quantity && item.version == ledger.items[m.ingredient].version
    requires m.ingredient !in ledger.items ==> item.quantity == 0 && item.version == 0
    requires m.balanceAfter == item.quantity + m.delta && m.versionAfter == item.version + 1 && item.active
    requires forall i :: 0 <= i < |ledger.movements| ==> Distinct(ledger.movements[i], m)
    ensures Inv(Posted(ledger, m, item))
  {
    hide Total, Moves, RowOk, Distinct;
    var longer := ledger.movements + [m];
    OneMore(ledger.movements, m);
    if m.ingredient !in ledger.items { NeverMoved(ledger.movements, m.ingredient); }
    var items := Posted(ledger, m, item).items;
    forall id | id in items
      ensures ItemOk(longer, id, items[id])
    {
      if id in ledger.items { assert ItemOk(ledger.movements, id, ledger.items[id]); }
      if id == m.ingredient { RowInRange(m); }
    }
    forall i | 0 <= i < |longer|
      ensures Explained(longer, i)
    {
      if i < |ledger.movements| {
        assert longer[..i + 1] == ledger.movements[..i + 1] && Explained(ledger.movements, i);
      } else {
        assert longer[..i + 1] == longer;
      }
    }
  }

  lemma RowInRange(m: Movement)
    requires RowOk(m)
    ensures InRange(m.balanceAfter)
  {
  }

  lemma ChangedKeeps(ledger: Ledger, payload: Payload, key: nat)
    requires Inv(ledger) && payload.Stock?
    ensures Inv(Changed(ledger, payload, key).0)
  {
    hide Inv, Explained, Posted;
    var ledger' := Changed(ledger, payload, key).0;
    if ledger' != ledger {
      ItemInRange(ledger, payload.ingredient);
      var item := ledger.items[payload.ingredient];
      var m := Movement(payload.ingredient, payload.kind, DeltaOf(payload, item.quantity), item.quantity + DeltaOf(payload, item.quantity),
                        item.version + 1, Some(key), Some(payload), None);
      forall i | 0 <= i < |ledger.movements|
        ensures Distinct(ledger.movements[i], m)
      {
        assert !Answers(ledger.movements[i], payload, key);
      }
      PostedKeeps(ledger, m, item);
    }
  }

  lemma ItemInRange(ledger: Ledger, id: nat)
    requires Inv(ledger) && id in ledger.items
    ensures InRange(ledger.items[id].quantity) && ledger.items[id].version >= 0
  {
    assert ItemOk(ledger.movements, id, ledger.items[id]);
  }

  lemma CreatedKeeps(ledger: Ledger, payload: Payload, key: nat, id: nat)
    requires Inv(ledger) && payload.Create? && id !in ledger.items
    ensures Inv(Created(ledger, payload, key, id).0)
  {
    hide Explained, Posted, Distinct, ItemOk;
    var ledger' := Created(ledger, payload, key, id).0;
    if ledger' != ledger {
      var m := Movement(id, Opening, payload.opening, payload.opening, 1, Some(key), Some(payload), None);
      forall i | 0 <= i < |ledger.movements|
        ensures Distinct(ledger.movements[i], m)
      {
        Apart(ledger.movements[i], m);
      }
      PostedKeeps(ledger, m, Item(payload.name, payload.threshold, true, 0, 0));
    }
  }

  lemma Apart(a: Movement, b: Movement)
    requires a.ingredient != b.ingredient
    ensures Distinct(a, b)
  {
  }

  lemma ConsumedOneKeeps(ledger: Ledger, order: nat, need: Need)
    requires Inv(ledger) && Enough(ledger, need) && !Taken(ledger, order, need.ingredient)
    ensures Inv(ConsumedOne(ledger, order, need))
    ensures forall id :: id != need.ingredient && !Taken(ledger, order, id) ==> !Taken(ConsumedOne(ledger, order, need), order, id)
  {
    hide Inv, Explained;
    ItemInRange(ledger, need.ingredient);
    var item := ledger.items[need.ingredient];
    var m := Movement(need.ingredient, Consumption, -need.required, item.quantity - need.required, item.version + 1, None, None, Some(order));
    PostedKeeps(ledger, m, item);
    forall id | id != need.ingredient && Taken(ConsumedOne(ledger, order, need), order, id)
      ensures Taken(ledger, order, id)
    {
      var longer := ledger.movements + [m];
      var i :| 0 <= i < |longer| && longer[i].order == Some(order) && longer[i].ingredient == id;
      assert ledger.movements[i] == longer[i];
    }
  }

  lemma {:induction false} ConsumedEachKeeps(ledger: Ledger, order: nat, needs: seq<Need>)
    requires Inv(ledger) && Separate(needs) && forall i :: 0 <= i < |needs| ==> Enough(ledger, needs[i])
    requires forall i :: 0 <= i < |needs| ==> !Taken(ledger, order, needs[i].ingredient)
    ensures Inv(ConsumedEach(ledger, order, needs))
    decreases |needs|
  {
    hide Inv, Taken;
    if needs != [] {
      var next := ConsumedOne(ledger, order, needs[0]);
      ConsumedOneKeeps(ledger, order, needs[0]);
      forall i | 0 <= i < |needs| - 1
        ensures Enough(next, needs[1..][i]) && !Taken(next, order, needs[1..][i].ingredient)
      {
        assert needs[1..][i] == needs[i + 1] && Enough(ledger, needs[i + 1]);
      }
      ConsumedEachKeeps(next, order, needs[1..]);
    }
  }

  lemma ConsumedKeeps(ledger: Ledger, order: nat, needs: seq<Need>)
    requires Inv(ledger) && Separate(needs)
    ensures Inv(Consumed(ledger, order, needs).0)
  {
    hide Inv, ConsumedEach, Taken;
    if Consumed(ledger, order, needs).1 == Recorded {
      ConsumedEachKeeps(ledger, order, needs);
    }
  }

  lemma EditedKeeps(ledger: Ledger, id: nat, name: string, threshold: int, active: bool)
    requires Inv(ledger)
    ensures Inv(Edited(ledger, id, name, threshold, active).0)
  {
    hide Explained, Distinct, Total, Moves;
    var ledger' := Edited(ledger, id, name, threshold, active).0;
    forall k | k in ledger'.items
      ensures ItemOk(ledger'.movements, k, ledger'.items[k])
    {
      assert ItemOk(ledger.movements, k, ledger.items[k]);
    }
  }

  // ---------------------------------------------------------------------------
  // What each command answers, in the caller's own terms

  /** This key has been used on the ingredient. */
  predicate Used(ledger: Ledger, id: nat, key: nat) {
    exists i :: 0 <= i < |ledger.movements| && ledger.movements[i].ingredient == id && ledger.movements[i].key == Some(key)
  }

  /** It was used for exactly this request. */
  predicate UsedFor(ledger: Ledger, payload: Payload, key: nat)
    requires payload.Stock?
  {
    exists i :: 0 <= i < |ledger.movements| && ledger.movements[i].ingredient == payload.ingredient && ledger.movements[i].key == Some(key)
                && ledger.movements[i].request == Some(payload)
  }

  /** Not something the form should have sent. */
  predicate Malformed(payload: Payload)
    requires payload.Stock?
  {
    || payload.kind == Opening || payload.kind == Consumption
    || LowStockEpisodes.Blank(payload.reason) || |payload.reason| > 500
    || payload.quantity < 0 || payload.quantity > 999_999_999_999
    || (payload.quantity == 0 && payload.kind != Count)
    || (payload.kind == Count && payload.expectedVersion == None)
  }

  /** The first reason, if any, why a stock command that is not a repetition cannot be recorded. */
  function Obstacle(item: Item, payload: Payload): Option<Refusal>
    requires payload.Stock?
  {
    if !item.active then Some(Inactive)
    else if payload.kind == Count && payload.expectedVersion != Some(item.version) then Some(StaleCount)
    else if payload.kind == Waste && payload.quantity > item.quantity then Some(Insufficient)
    else if payload.kind == Receipt && payload.quantity > 999_999_999_999 - item.quantity then Some(Invalid)
    else None
  }

  /** Every answer is given exactly for its stated reason. */
  lemma ChangedAnswers(ledger: Ledger, payload: Payload, key: nat)
    requires Inv(ledger) && payload.Stock?
    ensures var reply := Changed(ledger, payload, key).1;
            if payload.ingredient !in ledger.items then reply == Refused(NotFound)
            else if Malformed(payload) then reply == Refused(Invalid)
            else if Used(ledger, payload.ingredient, key) then
              if UsedFor(ledger, payload, key) then reply.Replayed? && reply.movement < |ledger.movements| && ledger.movements[reply.movement].request == Some(payload)
              else reply == Refused(KeyReused)
            else
              var obstacle := Obstacle(ledger.items[payload.ingredient], payload);
              reply == if obstacle.Some? then Refused(obstacle.value) else Recorded
  {
    hide Inv, Posted;
    if payload.ingredient in ledger.items {
      ItemInRange(ledger, payload.ingredient);
      EarlierIsOnly(ledger, payload, key);
    }
  }

  /** A key marks one movement of an ingredient at most, so finding any is finding it. */
  lemma EarlierIsOnly(ledger: Ledger, payload: Payload, key: nat)
    requires Inv(ledger) && payload.Stock?
    ensures var earlier := Earlier(ledger.movements, payload, key);
            && (earlier.Some? <==> Used(ledger, payload.ingredient, key))
            && (earlier.Some? ==> (ledger.movements[earlier.value].request == Some(payload) <==> UsedFor(ledger, payload, key)))
  {
    hide Explained, ItemOk, Earlier;
    var earlier := Earlier(ledger.movements, payload, key);
    if UsedFor(ledger, payload, key) {
      var i :| 0 <= i < |ledger.movements| && ledger.movements[i].ingredient == payload.ingredient && ledger.movements[i].key == Some(key)
               && ledger.movements[i].request == Some(payload);
      assert Answers(ledger.movements[i], payload, key);
      KeyMarksOne(ledger, i, earlier.value);
    }
  }

  lemma KeyMarksOne(ledger: Ledger, i: nat, j: nat)
    requires Inv(ledger) && i < |ledger.movements| && j < |ledger.movements|
    requires ledger.movements[i].ingredient == ledger.movements[j].ingredient && ledger.movements[i].key.Some? && ledger.movements[i].key == ledger.movements[j].key
    ensures i == j
  {
    hide Explained, ItemOk;
  }

  /** A recorded count leaves what was counted, a receipt adds its quantity and waste takes its quantity away; nothing else moves. */
  lemma ChangedMeans(ledger: Ledger, payload: Payload, key: nat)
    requires payload.Stock?
    ensures var (ledger', reply) := Changed(ledger, payload, key);
            if reply != Recorded then ledger' == ledger else
              && payload.ingredient in ledger.items && ledger'.items.Keys == ledger.items.Keys
              && (var was, now := ledger.items[payload.ingredient], ledger'.items[payload.ingredient];
                  && (payload.kind == Count ==> now.quantity == payload.quantity)
                  && (payload.kind == Receipt ==> now.quantity == was.quantity + payload.quantity)
                  && (payload.kind == Waste ==> now.quantity == was.quantity - payload.quantity)
                  && now == was.(quantity := now.quantity, version := was.version + 1)
                  && |ledger'.movements| == |ledger.movements| + 1 && ledger'.movements[..|ledger.movements|] == ledger.movements
                  && var m := ledger'.movements[|ledger.movements|];
                     m.ingredient == payload.ingredient && m.kind == payload.kind && m.delta == now.quantity - was.quantity
                     && m.balanceAfter == now.quantity && m.versionAfter == now.version && m.key == Some(key) && m.order == None)
              && (forall id :: id in ledger.items && id != payload.ingredient ==> ledger'.items[id] == ledger.items[id])
  {
    hide Earlier;
  }

  /** A creation is recorded exactly when it is well formed, its key opened nothing yet and its name is free; it holds what was asked for. */
  lemma CreatedMeans(ledger: Ledger, payload: Payload, key: nat, id: nat)
    requires payload.Create? && id !in ledger.items
    ensures var (ledger', reply) := Created(ledger, payload, key, id);
            && (reply == Recorded <==>
                  && !LowStockEpisodes.Blank(payload.name) && 0 <= payload.opening <= 999_999_999_999 && 0 <= payload.threshold <= 999_999_999_999
                  && (forall i :: 0 <= i < |ledger.movements| ==> !(ledger.movements[i].kind == Opening && ledger.movements[i].key == Some(key)))
                  && (forall k :: k in ledger.items ==> ledger.items[k].name != payload.name))
            && (if reply == Recorded then ledger'.items == ledger.items[id := Item(payload.name, payload.threshold, true, payload.opening, 1)] else ledger' == ledger)
  {
    hide Posted;
    PostedItems(ledger, Movement(id, Opening, payload.opening, payload.opening, 1, Some(key), Some(payload), None), Item(payload.name, payload.threshold, true, 0, 0));
    var earlier := Earlier(ledger.movements, payload, key);
    assert earlier.None? <==> forall i :: 0 <= i < |ledger.movements| ==> !(ledger.movements[i].kind == Opening && ledger.movements[i].key == Some(key)) by {
      if earlier.Some? { assert Answers(ledger.movements[earlier.value], payload, key); }
      else { assert forall i :: 0 <= i < |ledger.movements| ==> !Answers(ledger.movements[i], payload, key); }
    }
  }

  lemma PostedItems(ledger: Ledger, m: Movement, item: Item)
    ensures Posted(ledger, m, item).items == ledger.items[m.ingredient := item.(quantity := m.balanceAfter, version := m.versionAfter)]
    ensures Posted(ledger, m, item).movements == ledger.movements + [m]
  {
  }

  function Required(needs: seq<Need>, id: nat): int {
    if needs == [] then 0 else (if needs[0].ingredient == id then needs[0].required else 0) + Required(needs[1..], id)
  }

  /** Accepting an order takes from each ingredient exactly what the order needs of it. */
  lemma {:induction false} ConsumedMeans(ledger: Ledger, order: nat, needs: seq<Need>, id: nat)
    requires Separate(needs) && forall i :: 0 <= i < |needs| ==> Enough(ledger, needs[i])
    ensures var ledger' := ConsumedEach(ledger, order, needs);
            && ledger'.items.Keys == ledger.items.Keys
            && (id in ledger.items ==> ledger'.items[id].quantity == ledger.items[id].quantity - Required(needs, id))
            && (id in ledger.items && (forall i :: 0 <= i < |needs| ==> needs[i].ingredient != id) ==> ledger'.items[id] == ledger.items[id])
    decreases |needs|
  {
    if needs != [] {
      var next := ConsumedOne(ledger, order, needs[0]);
      forall i | 0 <= i < |needs| - 1
        ensures Enough(next, needs[1..][i])
      {
        assert Enough(ledger, needs[i + 1]);
      }
      ConsumedMeans(next, order, needs[1..], id);
    }
  }

  /** All or nothing: an acceptance is recorded exactly when every need can be met and none was met for this order before. */
  lemma ConsumedAnswers(ledger: Ledger, order: nat, needs: seq<Need>)
    requires Separate(needs)
    ensures var (ledger', reply) := Consumed(ledger, order, needs);
            && (reply == Recorded <==> forall i :: 0 <= i < |needs| ==> CanTake(ledger, order, needs[i].ingredient, needs[i].required))
            && (reply != Recorded ==> ledger' == ledger)
  {
    hide ConsumedEach;
    forall i | 0 <= i < |needs|
      ensures CanTake(ledger, order, needs[i].ingredient, needs[i].required) <==> Enough(ledger, needs[i]) && !Taken(ledger, order, needs[i].ingredient)
    {
    }
    hide Taken, Enough, CanTake;
  }

  /** An active ingredient with that much in stock, of which this order has taken nothing yet. */
  predicate CanTake(ledger: Ledger, order: nat, id: nat, required: int) {
    && id in ledger.items && ledger.items[id].active && 0 < required <= ledger.items[id].quantity
    && forall i :: 0 <= i < |ledger.movements| ==> !(ledger.movements[i].ingredient == id && ledger.movements[i].order == Some(order))
  }

  /** An edit takes effect exactly when the name is free and not blank, the threshold in range, and nothing left if it archives; stock stays as it is. */
  lemma EditedMeans(ledger: Ledger, id: nat, name: string, threshold: int, active: bool)
    requires Inv(ledger)
    ensures var (ledger', reply) := Edited(ledger, id, name, threshold, active);
            && (reply == Recorded <==>
                  && id in ledger.items && !LowStockEpisodes.Blank(name) && 0 <= threshold <= 999_999_999_999
                  && (forall k :: k in ledger.items && k != id ==> ledger.items[k].name != name)
                  && (active || ledger.items[id].quantity == 0))
            && ledger'.movements == ledger.movements
            && (if reply == Recorded
                then ledger'.items == ledger.items[id := Item(name, threshold, active, ledger.items[id].quantity, ledger.items[id].version)]
                else ledger' == ledger)
  {
    hide Inv;
    if id in ledger.items { ItemInRange(ledger, id); }
  }
}
