/**
 The shared inventory writer: every change of balance, threshold or activity advances the ingredient's
 revision and opens or resolves its low-stock episode in the same transaction.
 */
module InventoryWriter {
  import opened Options
  import opened LowStockEpisodes

  datatype Ingredient = Ingredient(revision: int, name: string, unit: Unit, quantity: int, threshold: int, active: bool) {
    predicate IsLow() { active && quantity <= threshold }

    /** What the commands validate before they write. */
    predicate Valid() { 0 <= quantity <= MAX_QUANTITY && 0 <= threshold <= MAX_QUANTITY && !Blank(name) }
  }

  type Items = map<int, Ingredient>

  datatype Scope = Scope(organizationId: int, restaurantId: int)

  /** Who changed the stock and why; an order acceptance names its order, nothing else does. */
  datatype Change = Change(source: Source, actor: Option<int>, orderId: Option<int>, at: int) {
    predicate Valid() { source == OrderAcceptance <==> orderId.Some? }
  }

  /** Only these three fields make a new revision: renaming alone does not. */
  predicate CoreChanged(before: Ingredient, after: Ingredient) {
    before.quantity != after.quantity || before.threshold != after.threshold || before.active != after.active
  }

  datatype Boundary = Opened | Resolved | NoBoundary

  predicate WasLow(before: Option<Ingredient>) {
    before.Some? && before.value.IsLow()
  }

  function BoundaryOf(before: Option<Ingredient>, after: Ingredient): Boundary {
    if !WasLow(before) && after.IsLow() then Opened
    else if WasLow(before) && !after.IsLow() then Resolved
    else NoBoundary
  }

  function ReasonFor(before: Ingredient, after: Ingredient): Reason {
    if before.active && !after.active then Archived
    else if before.threshold != after.threshold then ThresholdChanged
    else StockRecovered
  }

  ghost function OpenEpisode(rows: Episodes, ingredientId: int): (k: Option<nat>)
    ensures k.Some? <==> OpenFor(rows, ingredientId)
    ensures k.Some? ==> k.value in rows && rows[k.value].IsOpen() && rows[k.value].opening.ingredientId == ingredientId
  {
    if OpenFor(rows, ingredientId) then
      var k :| k in rows && rows[k].IsOpen() && rows[k].opening.ingredientId == ingredientId;
      Some(k)
    else None
  }

  function OpenedBy(scope: Scope, id: int, item: Ingredient, change: Change, suppressed: bool, newId: nat): Episode {
    Episode(newId,
            Opening(scope.organizationId, scope.restaurantId, id, item.name, item.unit, item.quantity, item.threshold,
                    change.at, item.revision, change.source, change.actor, change.orderId, suppressed),
            None, None, None, None, None, None, None, None, None)
  }

  function ResolvedBy(e: Episode, reason: Reason, item: Ingredient, change: Change): Episode {
    e.(resolvedAt := Some(change.at), reason := Some(reason), closingQuantity := Some(item.quantity),
       closingThreshold := Some(item.threshold), closingActive := Some(item.active),
       resolutionRevision := Some(item.revision), resolutionSource := Some(change.source),
       resolutionActor := change.actor, resolutionOrder := change.orderId)
  }

  /** A transaction either commits new rows or is rolled back by an error or a refused statement. */
  datatype Transaction = Committed(items: Items, episodes: Episodes) | RolledBack

  ghost function Recorded(scope: Scope, items: Items, episodes: Episodes, id: int, before: Option<Ingredient>, after: Ingredient,
                          change: Change, newId: nat): Transaction
  {
    if before.Some? && !CoreChanged(before.value, after) then
      Committed(items[id := after.(revision := before.value.revision)], episodes)
    else
      var revision := if before.Some? then before.value.revision + 1 else if after.revision >= 1 then after.revision else 1;
      var item := after.(revision := revision);
      var open := OpenEpisode(episodes, id);
      match BoundaryOf(before, item)
      case Opened =>
        var e := OpenedBy(scope, id, item, change, false, newId);
        // An unresolved episode of a normal state is an error; so is a refused insert.
        if open.Some? || !InsertAllowed(episodes, e) then RolledBack
        else Committed(items[id := item], episodes[newId := e])
      case Resolved =>
        // A low legacy row may have no episode; then none is invented.
        if open.None? then Committed(items[id := item], episodes)
        else
          var e := ResolvedBy(episodes[open.value], ReasonFor(before.value, item), item, change);
          if !UpdateAllowed(episodes, open.value, e) then RolledBack
          else Committed(items[id := item], episodes[open.value := e])
      case NoBoundary => Committed(items[id := item], episodes)
  }

  /** Maintenance marks a low ingredient that has no episode; the revision stays as it is. */
  ghost function BaselineRecorded(scope: Scope, items: Items, episodes: Episodes, id: int, at: int, newId: nat): Transaction
    requires id in items
  {
    if OpenEpisode(episodes, id).Some? || !items[id].IsLow() then Committed(items, episodes)
    else
      var e := OpenedBy(scope, id, items[id], Change(MaintenanceInitialization, None, None, at), true, newId);
      if !InsertAllowed(episodes, e) then RolledBack else Committed(items, episodes[newId := e])
  }

  /** An open episode belongs to an ingredient that is low now, opened no later than its revision. */
  ghost predicate EpisodesFollow(items: Items, episodes: Episodes) {
    forall k :: k in episodes && episodes[k].IsOpen() ==>
      var i := episodes[k].opening.ingredientId;
      i in items && items[i].IsLow() && episodes[k].opening.revision <= items[i].revision
  }

  ghost predicate StockOk(items: Items, episodes: Episodes) {
    && TableOk(episodes) && EpisodesFollow(items, episodes)
    && (forall i :: i in items ==> i > 0 && items[i].Valid() && items[i].revision >= 1)
  }

  lemma OpenedFollows(scope: Scope, items: Items, episodes: Episodes, id: int, item: Ingredient, change: Change, suppressed: bool, newId: nat)
    requires scope.restaurantId > 0 && TableOk(episodes) && id > 0 && item.Valid() && item.IsLow() && item.revision >= 1
    requires change.Valid() && (suppressed ==> change.source == MaintenanceInitialization)
    requires newId !in episodes && !OpenFor(episodes, id)
    requires EpisodesFollow(items, episodes)
    ensures var e := OpenedBy(scope, id, item, change, suppressed, newId);
            && InsertAllowed(episodes, e) && TableOk(episodes[newId := e])
            && EpisodesFollow(items[id := item], episodes[newId := e]) && Evolves(episodes, episodes[newId := e])
  {
    var e := OpenedBy(scope, id, item, change, suppressed, newId);
    InsertKeepsTable(episodes, e);
  }

  lemma ResolvedFollows(items: Items, episodes: Episodes, id: int, open: nat, item: Ingredient, reason: Reason, change: Change)
    requires TableOk(episodes) && EpisodesFollow(items, episodes) && change.Valid()
    requires open in episodes && episodes[open].IsOpen() && episodes[open].opening.ingredientId == id
    requires id in items && item.revision == items[id].revision + 1 && !item.IsLow()
    ensures var e := ResolvedBy(episodes[open], reason, item, change);
            && UpdateAllowed(episodes, open, e) && TableOk(episodes[open := e])
            && EpisodesFollow(items[id := item], episodes[open := e]) && Evolves(episodes, episodes[open := e])
  {
    var e := ResolvedBy(episodes[open], reason, item, change);
    var episodes' := episodes[open := e];
    assert Checks(episodes[open]);
    forall k | k in episodes' && episodes'[k].IsOpen()
      ensures var i := episodes'[k].opening.ingredientId;
              i in items && i != id && items[i].IsLow() && episodes'[k].opening.revision <= items[i].revision
    {
      assert BothOpen(episodes[k], episodes[open]) ==> k == open;
    }
  }

  ghost predicate Accepted(t: Transaction, episodes: Episodes) {
    t.Committed? && StockOk(t.items, t.episodes) && Evolves(episodes, t.episodes)
  }

  lemma StoredOk(items: Items, episodes: Episodes, id: int, item: Ingredient, episodes': Episodes)
    requires StockOk(items, episodes) && id > 0 && item.Valid() && item.revision >= 1
    requires TableOk(episodes') && EpisodesFollow(items[id := item], episodes') && Evolves(episodes, episodes')
    ensures Accepted(Committed(items[id := item], episodes'), episodes)
  {
    hide TableOk, EpisodesFollow, Evolves;
  }

  lemma OpeningAccepted(scope: Scope, items: Items, episodes: Episodes, id: int, after: Ingredient, change: Change, newId: nat)
    requires StockOk(items, episodes) && scope.restaurantId > 0
    requires id in items && after.Valid() && change.Valid() && newId !in episodes
    requires CoreChanged(items[id], after) && BoundaryOf(Some(items[id]), after) == Opened
    ensures Accepted(Recorded(scope, items, episodes, id, Some(items[id]), after, change, newId), episodes)
  {
    hide TableOk, EpisodesFollow, InsertAllowed, Evolves, OpenFor, Accepted;
    var item := after.(revision := items[id].revision + 1);
    NormalHasNoOpenEpisode(items, episodes, id);
    OpenedFollows(scope, items, episodes, id, item, change, false, newId);
    StoredOk(items, episodes, id, item, episodes[newId := OpenedBy(scope, id, item, change, false, newId)]);
  }

  lemma ResolutionAccepted(scope: Scope, items: Items, episodes: Episodes, id: int, after: Ingredient, change: Change, newId: nat)
    requires StockOk(items, episodes) && id in items && after.Valid() && change.Valid()
    requires CoreChanged(items[id], after) && BoundaryOf(Some(items[id]), after) == Resolved
    ensures Accepted(Recorded(scope, items, episodes, id, Some(items[id]), after, change, newId), episodes)
  {
    hide TableOk, EpisodesFollow, UpdateAllowed, Evolves, OpenFor, Accepted;
    var item := after.(revision := items[id].revision + 1);
    var open := OpenEpisode(episodes, id);
    if open.Some? {
      var e := ResolvedBy(episodes[open.value], ReasonFor(items[id], item), item, change);
      ResolvedFollows(items, episodes, id, open.value, item, ReasonFor(items[id], item), change);
      StoredOk(items, episodes, id, item, episodes[open.value := e]);
    } else {
      KeepsFollowing(items, episodes, id, item);
      EvolvesSelf(episodes);
      StoredOk(items, episodes, id, item, episodes);
    }
  }

  lemma QuietChangeAccepted(scope: Scope, items: Items, episodes: Episodes, id: int, after: Ingredient, change: Change, newId: nat)
    requires StockOk(items, episodes) && id in items && after.Valid()
    requires !CoreChanged(items[id], after) || BoundaryOf(Some(items[id]), after) == NoBoundary
    ensures Accepted(Recorded(scope, items, episodes, id, Some(items[id]), after, change, newId), episodes)
  {
    var item := after.(revision := if CoreChanged(items[id], after) then items[id].revision + 1 else items[id].revision);
    NormalHasNoOpenEpisode(items, episodes, id);
    KeepsFollowing(items, episodes, id, item);
    EvolvesSelf(episodes);
    StoredOk(items, episodes, id, item, episodes);
    hide TableOk, EpisodesFollow, Evolves, OpenFor, Accepted;
  }

  /**
   The writer and the table agree: a change that passed validation is never rolled back. The
   "unresolved episode" error cannot occur, and neither trigger, checks nor index refuse its rows.
   */
  lemma ChangeNeverRolledBack(scope: Scope, items: Items, episodes: Episodes, id: int, after: Ingredient, change: Change, newId: nat)
    requires StockOk(items, episodes) && scope.restaurantId > 0
    requires id in items && after.Valid() && change.Valid() && newId !in episodes
    ensures Accepted(Recorded(scope, items, episodes, id, Some(items[id]), after, change, newId), episodes)
  {
    hide StockOk, Accepted, Recorded;
    if !CoreChanged(items[id], after) || BoundaryOf(Some(items[id]), after) == NoBoundary {
      QuietChangeAccepted(scope, items, episodes, id, after, change, newId);
    } else if BoundaryOf(Some(items[id]), after) == Opened {
      OpeningAccepted(scope, items, episodes, id, after, change, newId);
    } else {
      ResolutionAccepted(scope, items, episodes, id, after, change, newId);
    }
  }

  lemma NormalHasNoOpenEpisode(items: Items, episodes: Episodes, id: int)
    requires EpisodesFollow(items, episodes)
    ensures !(id in items && items[id].IsLow()) ==> !OpenFor(episodes, id)
  {
  }

  lemma EvolvesSelf(episodes: Episodes)
    ensures Evolves(episodes, episodes)
  {
  }

  lemma NewKeepsFollowing(items: Items, episodes: Episodes, id: int, item: Ingredient)
    requires EpisodesFollow(items, episodes) && id !in items
    ensures EpisodesFollow(items[id := item], episodes)
  {
  }

  lemma KeepsFollowing(items: Items, episodes: Episodes, id: int, item: Ingredient)
    requires EpisodesFollow(items, episodes) && id in items
    requires item.revision >= items[id].revision
    requires item.IsLow() || !OpenFor(episodes, id)
    ensures EpisodesFollow(items[id := item], episodes)
  {
    forall k | k in episodes && episodes[k].IsOpen()
      ensures var i := episodes[k].opening.ingredientId;
              i in items[id := item] && items[id := item][i].IsLow() && episodes[k].opening.revision <= items[id := item][i].revision
    {
      if episodes[k].opening.ingredientId == id {
        assert OpenFor(episodes, id);
      }
    }
  }

  lemma CreationNeverRolledBack(scope: Scope, items: Items, episodes: Episodes, id: int, item: Ingredient, change: Change, newId: nat)
    requires StockOk(items, episodes) && scope.restaurantId > 0
    requires id !in items && id > 0 && item.Valid() && item.revision == 1 && change.Valid() && newId !in episodes
    ensures var t := Recorded(scope, items, episodes, id, None, item, change, newId);
            Accepted(t, episodes)
  {
    NormalHasNoOpenEpisode(items, episodes, id);
    EvolvesSelf(episodes);
    NewKeepsFollowing(items, episodes, id, item);
    hide TableOk, EpisodesFollow, InsertAllowed, Evolves, OpenFor;
    if item.IsLow() {
      OpenedFollows(scope, items, episodes, id, item, change, false, newId);
    }
  }

  lemma BaselineNeverRolledBack(scope: Scope, items: Items, episodes: Episodes, id: int, at: int, newId: nat)
    requires StockOk(items, episodes) && scope.restaurantId > 0 && id in items && newId !in episodes
    ensures var t := BaselineRecorded(scope, items, episodes, id, at, newId);
            Accepted(t, episodes) && t.items == items && (items[id].IsLow() ==> OpenFor(t.episodes, id))
  {
    if OpenEpisode(episodes, id).None? && items[id].IsLow() {
      OpenedFollows(scope, items, episodes, id, items[id], Change(MaintenanceInitialization, None, None, at), true, newId);
      assert items[id := items[id]] == items;
      assert newId in BaselineRecorded(scope, items, episodes, id, at, newId).episodes;
    }
  }

  // ---------------------------------------------------------------------------
  // What a committed change leaves behind

  /** The ingredient's only open episode. */
  predicate OnlyOpen(episodes: Episodes, id: int, k: nat) {
    && k in episodes && episodes[k].IsOpen() && episodes[k].opening.ingredientId == id
    && forall j :: j in episodes && episodes[j].IsOpen() && episodes[j].opening.ingredientId == id ==> j == k
  }

  predicate Low(quantity: int, threshold: int, active: bool) {
    active && quantity <= threshold
  }

  predicate LowBefore(before: Option<Ingredient>) {
    before.Some? && Low(before.value.quantity, before.value.threshold, before.value.active)
  }

  /** The revision counts the changes of quantity, threshold or activity; the rest is stored as given. */
  lemma StoredItem(scope: Scope, items: Items, episodes: Episodes, id: int, before: Option<Ingredient>, after: Ingredient, change: Change, newId: nat)
    ensures var t := Recorded(scope, items, episodes, id, before, after, change, newId);
            t.Committed? ==>
              && id in t.items && t.items == items[id := t.items[id]] && t.items[id] == after.(revision := t.items[id].revision)
              && (before.Some? ==>
                    t.items[id].revision == before.value.revision +
                      if before.value.quantity != after.quantity || before.value.threshold != after.threshold || before.value.active != after.active then 1 else 0)
              && (before.None? && after.revision >= 1 ==> t.items[id].revision == after.revision)
  {
    hide InsertAllowed, UpdateAllowed;
  }

  /** An ingredient that becomes low gets exactly one open episode, which says how, when and why it did. */
  lemma BecomingLowOpens(scope: Scope, items: Items, episodes: Episodes, id: int, before: Option<Ingredient>, after: Ingredient, change: Change, newId: nat)
    requires StockOk(items, episodes) && newId !in episodes && before == (if id in items then Some(items[id]) else None)
    requires Recorded(scope, items, episodes, id, before, after, change, newId).Committed?
    requires !LowBefore(before) && Low(after.quantity, after.threshold, after.active)
    ensures var t := Recorded(scope, items, episodes, id, before, after, change, newId);
            && id in t.items && t.episodes.Keys == episodes.Keys + {newId} && OnlyOpen(t.episodes, id, newId)
            && t.episodes[newId].opening == Opening(scope.organizationId, scope.restaurantId, id, after.name, after.unit, after.quantity, after.threshold,
                                                    change.at, t.items[id].revision, change.source, change.actor, change.orderId, false)
            && (forall k :: k in episodes ==> t.episodes[k] == episodes[k])
  {
    NormalHasNoOpenEpisode(items, episodes, id);
    hide InsertAllowed, StockOk;
  }

  /** An ingredient that stops being low has its open episode resolved, with the reason and the closing state. */
  lemma RecoveryResolves(scope: Scope, items: Items, episodes: Episodes, id: int, after: Ingredient, change: Change, newId: nat, k: nat)
    requires StockOk(items, episodes) && id in items && OnlyOpen(episodes, id, k)
    requires Recorded(scope, items, episodes, id, Some(items[id]), after, change, newId).Committed?
    requires Low(items[id].quantity, items[id].threshold, items[id].active) && !Low(after.quantity, after.threshold, after.active)
    ensures var t := Recorded(scope, items, episodes, id, Some(items[id]), after, change, newId);
            && id in t.items && t.episodes.Keys == episodes.Keys && !OpenFor(t.episodes, id)
            && (forall j :: j in episodes && j != k ==> t.episodes[j] == episodes[j])
            && t.episodes[k] == Episode(k, episodes[k].opening, Some(change.at),
                                        Some(if !after.active then Archived else if after.threshold != items[id].threshold then ThresholdChanged else StockRecovered),
                                        Some(after.quantity), Some(after.threshold), Some(after.active), Some(t.items[id].revision), Some(change.source),
                                        change.actor, change.orderId)
  {
    assert episodes[k].id == k;
    hide StockOk, UpdateAllowed;
  }

  /** A change across no boundary leaves every episode alone. */
  lemma QuietChangeKeepsEpisodes(scope: Scope, items: Items, episodes: Episodes, id: int, before: Option<Ingredient>, after: Ingredient, change: Change, newId: nat)
    requires LowBefore(before) <==> Low(after.quantity, after.threshold, after.active)
    ensures var t := Recorded(scope, items, episodes, id, before, after, change, newId); t.Committed? && t.episodes == episodes
  {
  }

  /** A baseline marks a low ingredient without an open episode, suppressed and in maintenance's name, and touches nothing else. */
  lemma BaselineOpens(scope: Scope, items: Items, episodes: Episodes, id: int, at: int, newId: nat)
    requires StockOk(items, episodes) && scope.restaurantId > 0 && id in items && newId !in episodes
    ensures var t := BaselineRecorded(scope, items, episodes, id, at, newId);
            if items[id].IsLow() && !OpenFor(episodes, id) then
              && t.Committed? && t.episodes.Keys == episodes.Keys + {newId} && OnlyOpen(t.episodes, id, newId)
              && (forall k :: k in episodes ==> t.episodes[k] == episodes[k])
              && t.episodes[newId].opening == Opening(scope.organizationId, scope.restaurantId, id, items[id].name, items[id].unit, items[id].quantity,
                                                      items[id].threshold, at, items[id].revision, MaintenanceInitialization, None, None, true)
            else t == Committed(items, episodes)
  {
    BaselineNeverRolledBack(scope, items, episodes, id, at, newId);
    hide InsertAllowed, StockOk;
  }
}
