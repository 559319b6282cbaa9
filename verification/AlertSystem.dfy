/**
 Inventory changes, alert events and rebuilds interleaved in any way, for one restaurant.

 The source's promise that a state event, however old, makes the projected row equal the live state
 holds for the unit and for the stock facts that carry a revision. It does not hold for the name and the
 episode reference: renaming an ingredient, or recording a maintenance baseline episode, does not
 advance the revision, and an event at the same revision is skipped. The exact condition is proved.
 */
module AlertSystem {
  import opened Options
  import opened LowStockEpisodes
  import opened InventoryWriter
  import opened AlertProjection

  /** The facts that carry a revision. */
  datatype Core = Core(quantity: int, threshold: int, active: bool)

  function CoreOf(item: Ingredient): Core {
    Core(item.quantity, item.threshold, item.active)
  }

  function CoreOfRow(row: StateRow): Core {
    Core(row.quantity, row.threshold, row.active)
  }

  /** `past` remembers what each ingredient's core was at each of its revisions. */
  datatype World = World(scope: Scope, items: Items, episodes: Episodes, alerts: Episodes, states: States, past: map<(int, int), Core>)

  datatype Action =
    | AddIngredient(id: int, item: Ingredient, change: Change, newId: nat)
    | ChangeIngredient(id: int, item: Ingredient, change: Change, newId: nat)
    | RecordBaseline(id: int, at: int, newId: nat)
    | StateEvent(id: int, episode: Option<nat>, at: int)
    | LowEvent(episode: Option<nat>)
    | RebuildAlerts(loaded: seq<Loaded>, history: seq<Episode>, at: int)

  ghost function Load(w: World, i: int): Loaded
    requires i in w.items
  {
    Loaded(i, w.items[i], OpenEpisode(w.episodes, i))
  }

  function Facts(w: World, episode: Option<nat>): Option<Episode> {
    if episode.Some? && episode.value in w.episodes then Some(w.episodes[episode.value]) else None
  }

  function Synced(w: World, episode: Option<nat>): Episodes {
    var facts := Facts(w, episode);
    if facts.Some? then w.alerts[facts.value.id := facts.value] else w.alerts
  }

  ghost predicate Written(w: World, id: int, t: Transaction, w': World) {
    if t.RolledBack? then w' == w else
      && id in t.items
      && w' == w.(items := t.items, episodes := t.episodes, past := w.past[(id, t.items[id].revision) := CoreOf(t.items[id])])
  }

  ghost predicate LoadsAll(w: World, loaded: seq<Loaded>, history: seq<Episode>) {
    && (forall c :: c in loaded <==> c.ingredientId in w.items && c == Load(w, c.ingredientId))
    && (forall a, b :: 0 <= a < b < |loaded| ==> loaded[a].ingredientId != loaded[b].ingredientId)
    && (forall e :: e in history <==> e.id in w.episodes && e == w.episodes[e.id])
    && (forall a, b :: 0 <= a < b < |history| ==> history[a].id != history[b].id)
  }

  /**
   Identifiers of new episodes are fresh; commands validate what they write. An update keeps the unit: every
   ingredient has its opening movement, and the unit cannot change once there is history.
   */
  ghost predicate Next(w: World, action: Action, w': World) {
    match action
    case AddIngredient(id, item, change, newId) =>
      && id !in w.items && id > 0 && item.Valid() && item.revision == 1 && change.Valid() && newId !in w.episodes
      && Written(w, id, Recorded(w.scope, w.items, w.episodes, id, None, item, change, newId), w')
    case ChangeIngredient(id, item, change, newId) =>
      && id in w.items && item.Valid() && item.unit == w.items[id].unit && change.Valid() && newId !in w.episodes
      && Written(w, id, Recorded(w.scope, w.items, w.episodes, id, Some(w.items[id]), item, change, newId), w')
    case RecordBaseline(id, at, newId) =>
      && id in w.items && newId !in w.episodes
      && Written(w, id, BaselineRecorded(w.scope, w.items, w.episodes, id, at, newId), w')
    case StateEvent(id, episode, at) =>
      id in w.items && w' == w.(alerts := Synced(w, episode), states := EventApplied(w.states, Load(w, id), at))
    case LowEvent(episode) =>
      w' == w.(alerts := Synced(w, episode))
    case RebuildAlerts(loaded, history, at) =>
      LoadsAll(w, loaded, history) && w' == w.(alerts := StoreAll(w.alerts, history), states := RebuildAll(w.states, loaded, at))
  }

  /** Ingredients may predate the episode table, low ones among them; episodes and projection start empty. */
  ghost predicate Init(w: World) {
    && w.scope.restaurantId > 0 && w.episodes == map[] && w.alerts == map[] && w.states == map[]
    && (forall i :: i in w.items ==> i > 0 && w.items[i].Valid() && w.items[i].revision >= 1)
    && PastOk(w)
  }

  ghost predicate Behaviour(ws: seq<World>, actions: seq<Action>) {
    && |ws| == |actions| + 1 && Init(ws[0])
    && forall i :: 0 <= i < |actions| ==> Next(ws[i], actions[i], ws[i + 1])
  }

  // ---------------------------------------------------------------------------
  // What every step keeps

  /** The live core is the newest one remembered. */
  ghost predicate PastOk(w: World) {
    && (forall i :: i in w.items ==> (i, w.items[i].revision) in w.past && w.past[(i, w.items[i].revision)] == CoreOf(w.items[i]))
    && (forall p :: p in w.past ==> p.0 in w.items && p.1 <= w.items[p.0].revision)
  }

  /** A projected row is a faithful copy of the live core as it was at the row's revision. */
  ghost predicate RowFaithful(w: World, i: int) {
    i in w.states ==>
      && (i, w.states[i].revision) in w.past
      && CoreOfRow(w.states[i]) == w.past[(i, w.states[i].revision)]
      && i in w.items && w.states[i].unit == w.items[i].unit
      && w.states[i].low == (w.states[i].active && w.states[i].quantity <= w.states[i].threshold)
  }

  ghost predicate Inv(w: World) {
    && w.scope.restaurantId > 0 && StockOk(w.items, w.episodes) && PastOk(w)
    && (forall i :: RowFaithful(w, i))
    && Evolves(w.alerts, w.episodes)
  }

  /** The remembered past only grows. */
  predicate PastGrows(past: map<(int, int), Core>, past': map<(int, int), Core>) {
    forall p :: p in past ==> p in past' && past'[p] == past[p]
  }

  lemma FaithfulStays(w: World, w': World)
    requires forall i :: RowFaithful(w, i)
    requires w'.states == w.states && PastGrows(w.past, w'.past)
    requires forall i :: i in w.items ==> i in w'.items && w'.items[i].unit == w.items[i].unit
    ensures forall i :: RowFaithful(w', i)
  {
    forall i ensures RowFaithful(w', i) {
      assert RowFaithful(w, i);
    }
  }

  /** A committed write keeps the revision with the core, or advances it past everything remembered. */
  lemma WriteKeepsPast(w: World, id: int, item: Ingredient, episodes: Episodes, w': World)
    requires PastOk(w)
    requires id in w.items ==> item.revision > w.items[id].revision || (item.revision == w.items[id].revision && CoreOf(item) == CoreOf(w.items[id]))
    requires w' == w.(items := w.items[id := item], episodes := episodes, past := w.past[(id, item.revision) := CoreOf(item)])
    ensures PastOk(w') && PastGrows(w.past, w'.past)
  {
  }

  lemma WriteInv(w: World, id: int, item: Ingredient, t: Transaction, w': World)
    requires Inv(w) && Accepted(t, w.episodes) && t.items == w.items[id := item] && Written(w, id, t, w')
    requires id in w.items ==> item.revision > w.items[id].revision || (item.revision == w.items[id].revision && CoreOf(item) == CoreOf(w.items[id]))
    requires id in w.items ==> item.unit == w.items[id].unit
    ensures Inv(w') && PastGrows(w.past, w'.past) && Evolves(w.episodes, w'.episodes)
  {
    hide StockOk, Evolves, RowFaithful, PastOk;
    WriteKeepsPast(w, id, item, t.episodes, w');
    FaithfulStays(w, w');
    EvolvesTransitively(w.alerts, w.episodes, w'.episodes);
  }

  lemma AddInv(w: World, action: Action, w': World)
    requires Inv(w) && action.AddIngredient? && Next(w, action, w')
    ensures Inv(w') && PastGrows(w.past, w'.past) && Evolves(w.episodes, w'.episodes)
  {
    var t := Recorded(w.scope, w.items, w.episodes, action.id, None, action.item, action.change, action.newId);
    CreationNeverRolledBack(w.scope, w.items, w.episodes, action.id, action.item, action.change, action.newId);
    StoredItem(w.scope, w.items, w.episodes, action.id, None, action.item, action.change, action.newId);
    hide Inv, Recorded, Accepted;
    WriteInv(w, action.id, t.items[action.id], t, w');
  }

  lemma ChangeInv(w: World, action: Action, w': World)
    requires Inv(w) && action.ChangeIngredient? && Next(w, action, w')
    ensures Inv(w') && PastGrows(w.past, w'.past) && Evolves(w.episodes, w'.episodes)
  {
    var t := Recorded(w.scope, w.items, w.episodes, action.id, Some(w.items[action.id]), action.item, action.change, action.newId);
    ChangeNeverRolledBack(w.scope, w.items, w.episodes, action.id, action.item, action.change, action.newId);
    StoredItem(w.scope, w.items, w.episodes, action.id, Some(w.items[action.id]), action.item, action.change, action.newId);
    hide Inv, Recorded, Accepted;
    WriteInv(w, action.id, t.items[action.id], t, w');
  }

  lemma BaselineInv(w: World, action: Action, w': World)
    requires Inv(w) && action.RecordBaseline? && Next(w, action, w')
    ensures Inv(w') && PastGrows(w.past, w'.past) && Evolves(w.episodes, w'.episodes)
  {
    var t := BaselineRecorded(w.scope, w.items, w.episodes, action.id, action.at, action.newId);
    BaselineNeverRolledBack(w.scope, w.items, w.episodes, action.id, action.at, action.newId);
    assert w.items[action.id := w.items[action.id]] == w.items;
    hide Inv, BaselineRecorded, Accepted;
    WriteInv(w, action.id, w.items[action.id], t, w');
  }

  lemma SyncedEvolves(w: World, episode: Option<nat>)
    requires TableOk(w.episodes) && Evolves(w.alerts, w.episodes)
    ensures Evolves(Synced(w, episode), w.episodes) && Evolves(w.alerts, Synced(w, episode))
  {
    hide Checks;
  }

  lemma EventInv(w: World, action: Action, w': World)
    requires Inv(w) && (action.StateEvent? || action.LowEvent?) && Next(w, action, w')
    ensures Inv(w') && Evolves(w.alerts, w'.alerts)
  {
    SyncedEvolves(w, action.episode);
    hide StockOk, Evolves, Synced;
    forall i ensures RowFaithful(w', i) {
      assert RowFaithful(w, i);
    }
  }

  lemma RebuildShows(w: World, action: Action, w': World, i: int)
    requires Inv(w) && action.RebuildAlerts? && Next(w, action, w')
    ensures i in w'.states <==> i in w.states || i in w.items
    ensures i in w.items ==> w'.states[i] == Shown(Load(w, i), action.at)
    ensures i in w.states ==> i in w.items && w.states[i].revision <= w.items[i].revision
  {
    assert RowFaithful(w, i);
    hide StockOk, Evolves, RowFaithful;
    if i in w.states {
      assert (i, w.states[i].revision) in w.past by { RowKnown(w, i); }
    }
    if i in w.items {
      assert Load(w, i) in action.loaded;
    }
    RebuildAllAt(w.states, action.loaded, action.at, i);
  }

  lemma RowKnown(w: World, i: int)
    requires RowFaithful(w, i) && i in w.states
    ensures (i, w.states[i].revision) in w.past
  {
  }

  lemma RebuildEpisodes(w: World, action: Action, w': World)
    requires Inv(w) && action.RebuildAlerts? && Next(w, action, w')
    ensures w'.alerts == w.episodes
  {
    assert TableOk(w.episodes);
    hide StockOk, PastOk, Checks;
    forall id ensures (id in w'.alerts <==> id in w.episodes) && (id in w.episodes ==> w'.alerts[id] == w.episodes[id]) {
      if id in w.episodes {
        assert w.episodes[id].id == id;
        assert w.episodes[id] in action.history;
      }
      StoreAllAt(w.alerts, action.history, id);
    }
  }

  lemma RebuildInv(w: World, action: Action, w': World)
    requires Inv(w) && action.RebuildAlerts? && Next(w, action, w')
    ensures Inv(w') && Evolves(w.alerts, w'.alerts)
  {
    RebuildEpisodes(w, action, w');
    EvolvesSelf(w.episodes);
    forall i ensures RowFaithful(w', i) {
      RebuildShows(w, action, w', i);
    }
    hide StockOk, Evolves, RowFaithful, RebuildAll, StoreAll;
  }

  /** Every action keeps the invariant; nothing remembered or retained is lost. */
  lemma NextInv(w: World, action: Action, w': World)
    requires Inv(w) && Next(w, action, w')
    ensures Inv(w') && PastGrows(w.past, w'.past) && Evolves(w.episodes, w'.episodes) && Evolves(w.alerts, w'.alerts)
  {
    EvolvesSelf(w.alerts);
    EvolvesSelf(w.episodes);
    hide Inv, Evolves;
    match action
    case AddIngredient(_, _, _, _) => AddInv(w, action, w');
    case ChangeIngredient(_, _, _, _) => ChangeInv(w, action, w');
    case RecordBaseline(_, _, _) => BaselineInv(w, action, w');
    case StateEvent(_, _, _) => EventInv(w, action, w');
    case LowEvent(_) => EventInv(w, action, w');
    case RebuildAlerts(_, _, _) => RebuildInv(w, action, w');
  }

  // ---------------------------------------------------------------------------
  // The promises

  lemma {:induction false} BehaviourInv(ws: seq<World>, actions: seq<Action>, i: nat)
    requires Behaviour(ws, actions) && i < |ws|
    ensures Inv(ws[i])
  {
    hide Inv, Next;
    if i == 0 {
      InitInv(ws[0]);
    } else {
      BehaviourInv(ws, actions, i - 1);
      NextInv(ws[i - 1], actions[i - 1], ws[i]);
    }
  }

  lemma InitInv(w: World)
    requires Init(w)
    ensures Inv(w)
  {
  }

  lemma RowFollows(w: World, i: int)
    requires Inv(w) && i in w.states
    ensures i in w.items && w.states[i].revision <= w.items[i].revision
    ensures (i, w.states[i].revision) in w.past && CoreOfRow(w.states[i]) == w.past[(i, w.states[i].revision)]
  {
    hide StockOk, Evolves;
    assert RowFaithful(w, i);
  }

  /** One step never lowers a projected revision. */
  lemma StepKeepsRevision(w: World, action: Action, w': World, i: int)
    requires Inv(w) && Next(w, action, w') && i in w.states
    ensures i in w'.states && w.states[i].revision <= w'.states[i].revision
  {
    if action.RebuildAlerts? {
      RebuildShows(w, action, w', i);
    }
  }

  /**
   In every behaviour a projected row's revision never falls and never passes the live one, and the row is
   the live core as it stood at that revision.
   */
  lemma {:induction false} ProjectionFollowsInventory(ws: seq<World>, actions: seq<Action>, a: nat, b: nat, i: int)
    requires Behaviour(ws, actions) && a <= b < |ws| && i in ws[a].states
    ensures i in ws[b].states && i in ws[b].items
    ensures ws[a].states[i].revision <= ws[b].states[i].revision <= ws[b].items[i].revision
    ensures (i, ws[b].states[i].revision) in ws[b].past && CoreOfRow(ws[b].states[i]) == ws[b].past[(i, ws[b].states[i].revision)]
  {
    hide Inv, Next;
    if a < b {
      ProjectionFollowsInventory(ws, actions, a, b - 1, i);
      BehaviourInv(ws, actions, b - 1);
      StepKeepsRevision(ws[b - 1], actions[b - 1], ws[b], i);
    }
    BehaviourInv(ws, actions, b);
    RowFollows(ws[b], i);
  }

  lemma AlertsVersioned(w: World)
    requires Inv(w)
    ensures Evolves(w.alerts, w.episodes)
  {
  }

  /** A projected episode never un-resolves, and is always an earlier-or-equal version of its producer row. */
  lemma {:induction false} ProjectedEpisodesAreVersions(ws: seq<World>, actions: seq<Action>, a: nat, b: nat)
    requires Behaviour(ws, actions) && a <= b < |ws|
    ensures Evolves(ws[a].alerts, ws[b].alerts) && Evolves(ws[b].alerts, ws[b].episodes) && Evolves(ws[a].episodes, ws[b].episodes)
  {
    hide Inv, Next, Evolves;
    BehaviourInv(ws, actions, b);
    AlertsVersioned(ws[b]);
    if a < b {
      ProjectedEpisodesAreVersions(ws, actions, a, b - 1);
      BehaviourInv(ws, actions, b - 1);
      assert Next(ws[b - 1], actions[b - 1], ws[b]);
      NextInv(ws[b - 1], actions[b - 1], ws[b]);
      EvolvesTransitively(ws[a].alerts, ws[b - 1].alerts, ws[b].alerts);
      EvolvesTransitively(ws[a].episodes, ws[b - 1].episodes, ws[b].episodes);
    } else {
      EvolvesSelf(ws[a].alerts);
      EvolvesSelf(ws[a].episodes);
    }
  }

  /** What a row shows besides its revisioned core. */
  datatype Label = Label(name: string, episode: Option<nat>)

  function LabelOfRow(row: StateRow): Label {
    Label(row.name, row.episode)
  }

  function LabelOf(current: Loaded): Label {
    Label(current.item.name, if current.item.IsLow() then current.open else None)
  }

  /** The row shows the live state in every column, its time of occurrence aside. */
  predicate Mirrors(row: StateRow, current: Loaded) {
    && row.revision == current.item.revision && row.name == current.item.name && row.unit == current.item.unit
    && row.quantity == current.item.quantity && row.threshold == current.item.threshold && row.active == current.item.active
    && row.low == (row.active && row.quantity <= row.threshold)
    && row.episode == (if row.low then current.open else None)
  }

  /**
   Any state event, however old, brings the row to the live revision, unit and core. It brings the name and
   the episode too if and only if the row was missing, was behind, or already carried the live ones.
   */
  lemma StateEventShowsLive(w: World, action: Action, w': World)
    requires Inv(w) && action.StateEvent? && Next(w, action, w')
    ensures var i := action.id;
            && i in w'.states && w'.states[i].revision == w.items[i].revision
            && CoreOfRow(w'.states[i]) == CoreOf(w.items[i]) && w'.states[i].low == w.items[i].IsLow() && w'.states[i].unit == w.items[i].unit
            && (Mirrors(w'.states[i], Load(w, i)) <==>
                  i !in w.states || w.states[i].revision < w.items[i].revision || LabelOfRow(w.states[i]) == LabelOf(Load(w, i)))
  {
    var i := action.id;
    assert RowFaithful(w, i);
    hide StockOk, Evolves;
  }

  /** A rebuild shows every ingredient exactly as it is, and every episode as its producer recorded it. */
  lemma RebuildShowsEverything(w: World, action: Action, w': World, i: int)
    requires Inv(w) && action.RebuildAlerts? && Next(w, action, w')
    ensures w'.alerts == w.episodes
    ensures i in w.items ==> i in w'.states && Mirrors(w'.states[i], Load(w, i))
    ensures i in w'.states ==> i in w.items
  {
    RebuildEpisodes(w, action, w');
    RebuildShows(w, action, w', i);
  }

  /** A rename alone stays invisible to events: the row keeps the old name however many are delivered. */
  lemma {:induction false} RenameIsMissedByEvents(ws: seq<World>, actions: seq<Action>, b: nat, i: int)
    requires |ws| == |actions| + 1 && b < |ws| && Inv(ws[0])
    requires forall k :: 0 <= k < |actions| ==> (actions[k].StateEvent? || actions[k].LowEvent?) && Next(ws[k], actions[k], ws[k + 1])
    requires i in ws[0].items && i in ws[0].states && ws[0].states[i].revision == ws[0].items[i].revision
    ensures ws[b].items == ws[0].items && i in ws[b].states && ws[b].states[i] == ws[0].states[i]
  {
    if b > 0 {
      RenameIsMissedByEvents(ws, actions, b - 1, i);
      assert Next(ws[b - 1], actions[b - 1], ws[b]);
    }
  }

  /** Such a world is reached by creating an ingredient, projecting it, and renaming it. */
  lemma RenamedWorldExists(change: Change) returns (ws: seq<World>, actions: seq<Action>)
    requires change.Valid()
    ensures Behaviour(ws, actions) && |ws| == 5
    ensures 1 in ws[4].items && 1 in ws[4].states && actions[3].StateEvent?
    ensures ws[4].items[1].name == "rice" && ws[4].states[1].name == "rise"
  {
    var item := Ingredient(1, "rise", Grams, 5000, 1000, true);
    assert !Blank("rise") by { assert "rise"[0] != ' '; }
    assert !Blank("rice") by { assert "rice"[0] != ' '; }
    var w0 := World(Scope(1, 1), map[], map[], map[], map[], map[]);
    var w1 := w0.(items := map[1 := item], past := map[(1, 1) := CoreOf(item)]);
    var a0 := AddIngredient(1, item, change, 0);
    assert Next(w0, a0, w1);
    var a1 := StateEvent(1, None, 0);
    var w2 := w1.(states := EventApplied(w1.states, Load(w1, 1), 0));
    assert Next(w1, a1, w2);
    var renamed := item.(name := "rice");
    var a2 := ChangeIngredient(1, renamed, change, 0);
    var w3 := w2.(items := w2.items[1 := renamed], past := w2.past[(1, 1) := CoreOf(renamed)]);
    assert Next(w2, a2, w3);
    var a3 := StateEvent(1, None, 1);
    var w4 := w3.(states := EventApplied(w3.states, Load(w3, 1), 1));
    assert Next(w3, a3, w4);
    ws, actions := [w0, w1, w2, w3, w4], [a0, a1, a2, a3];
    assert w4.states[1] == w2.states[1] == Shown(Load(w1, 1), 0);
  }

  /** An ingredient that was low before episodes existed is projected, then given its baseline; a later event misses it. */
  lemma BaselineIsMissedByEvents(at: int) returns (ws: seq<World>, actions: seq<Action>)
    ensures Behaviour(ws, actions) && |ws| == 4 && actions[1] == RecordBaseline(1, at, 7) && actions[2].StateEvent?
    ensures 1 in ws[3].items && ws[3].items[1].IsLow() && OpenEpisode(ws[3].episodes, 1) == Some(7)
    ensures 1 in ws[3].states && ws[3].states[1].episode == None && !Mirrors(ws[3].states[1], Load(ws[3], 1))
  {
    var item := Ingredient(1, "salt", Grams, 500, 1000, true);
    assert !Blank("salt") by { assert "salt"[0] != ' '; }
    var w0 := World(Scope(1, 1), map[1 := item], map[], map[], map[], map[(1, 1) := CoreOf(item)]);
    var a0 := StateEvent(1, None, 0);
    var w1 := w0.(states := EventApplied(w0.states, Load(w0, 1), 0));
    var e := OpenedBy(w0.scope, 1, item, Change(MaintenanceInitialization, None, None, at), true, 7);
    var a1 := RecordBaseline(1, at, 7);
    var w2 := w1.(episodes := map[7 := e]);
    assert OpenEpisode(w1.episodes, 1) == None && InsertAllowed(w1.episodes, e);
    assert w1.episodes[7 := e] == w2.episodes && w2.past[(1, 1) := CoreOf(item)] == w2.past;
    assert Next(w1, a1, w2);
    var a2 := StateEvent(1, None, 1);
    var w3 := w2;
    assert 7 in w3.episodes && w3.episodes[7].IsOpen();
    assert EventApplied(w2.states, Load(w2, 1), 1) == w2.states;
    ws, actions := [w0, w1, w2, w3], [a0, a1, a2];
  }

  // ---------------------------------------------------------------------------
  // Episodes and low stock

  /** The ingredient is not there yet, is not low, or has an open episode. */
  predicate Tracked(w: World, i: int) {
    i in w.items && w.items[i].IsLow() ==> OpenFor(w.episodes, i)
  }

  lemma OpenStays(before: Episodes, after: Episodes, i: int)
    requires forall k :: k in before && before[k].opening.ingredientId == i ==> k in after && after[k] == before[k]
    requires OpenFor(before, i)
    ensures OpenFor(after, i)
  {
    var k :| k in before && before[k].IsOpen() && before[k].opening.ingredientId == i;
    assert k in after && after[k].IsOpen();
  }

  /** Recording a change of one ingredient keeps it tracked and leaves the episodes of every other alone. */
  lemma RecordedTracks(w: World, id: int, item: Ingredient, change: Change, newId: nat, i: int)
    requires Inv(w) && id > 0 && item.Valid() && change.Valid() && newId !in w.episodes && (id !in w.items ==> item.revision == 1)
    requires Tracked(w, i)
    ensures var before := if id in w.items then Some(w.items[id]) else None;
            var t := Recorded(w.scope, w.items, w.episodes, id, before, item, change, newId);
            t.Committed? && (i in t.items && t.items[i].IsLow() ==> OpenFor(t.episodes, i))
  {
    var before := if id in w.items then Some(w.items[id]) else None;
    var t := Recorded(w.scope, w.items, w.episodes, id, before, item, change, newId);
    if id in w.items {
      ChangeNeverRolledBack(w.scope, w.items, w.episodes, id, item, change, newId);
    } else {
      CreationNeverRolledBack(w.scope, w.items, w.episodes, id, item, change, newId);
    }
    StoredItem(w.scope, w.items, w.episodes, id, before, item, change, newId);
    EpisodesTracked(w, id, item, change, newId, i);
  }

  lemma EpisodesTracked(w: World, id: int, item: Ingredient, change: Change, newId: nat, i: int)
    requires Inv(w) && newId !in w.episodes && Tracked(w, i)
    requires Recorded(w.scope, w.items, w.episodes, id, if id in w.items then Some(w.items[id]) else None, item, change, newId).Committed?
    ensures var t := Recorded(w.scope, w.items, w.episodes, id, if id in w.items then Some(w.items[id]) else None, item, change, newId);
            && (i == id && item.IsLow() ==> OpenFor(t.episodes, i))
            && (i != id && OpenFor(w.episodes, i) ==> OpenFor(t.episodes, i))
  {
    var before := if id in w.items then Some(w.items[id]) else None;
    var t := Recorded(w.scope, w.items, w.episodes, id, before, item, change, newId);
    var low := Low(item.quantity, item.threshold, item.active);
    if LowBefore(before) == low {
      QuietChangeKeepsEpisodes(w.scope, w.items, w.episodes, id, before, item, change, newId);
    } else if low {
      BecomingLowOpens(w.scope, w.items, w.episodes, id, before, item, change, newId);
      hide Recorded, Inv;
      if i != id && OpenFor(w.episodes, i) { OpenStays(w.episodes, t.episodes, i); }
    } else {
      var open := OpenEpisode(w.episodes, id);
      if open.Some? {
        OneOpen(w, id, open.value);
        RecoveryResolves(w.scope, w.items, w.episodes, id, item, change, newId, open.value);
        hide Recorded, Inv;
        if i != id && OpenFor(w.episodes, i) { OpenStays(w.episodes, t.episodes, i); }
      }
    }
  }

  lemma OneOpen(w: World, id: int, k: nat)
    requires Inv(w) && k in w.episodes && w.episodes[k].IsOpen() && w.episodes[k].opening.ingredientId == id
    ensures OnlyOpen(w.episodes, id, k)
  {
    forall j | j in w.episodes && w.episodes[j].IsOpen() && w.episodes[j].opening.ingredientId == id
      ensures j == k
    {
      assert BothOpen(w.episodes[j], w.episodes[k]);
    }
  }

  lemma BaselineTracks(w: World, id: int, at: int, newId: nat, i: int)
    requires Inv(w) && id in w.items && newId !in w.episodes && (Tracked(w, i) || i == id)
    ensures var t := BaselineRecorded(w.scope, w.items, w.episodes, id, at, newId);
            t.Committed? && t.items == w.items && (i in t.items && t.items[i].IsLow() ==> OpenFor(t.episodes, i))
  {
    BaselineOpens(w.scope, w.items, w.episodes, id, at, newId);
    BaselineNeverRolledBack(w.scope, w.items, w.episodes, id, at, newId);
    var t := BaselineRecorded(w.scope, w.items, w.episodes, id, at, newId);
    hide BaselineRecorded, Inv;
    if i != id && OpenFor(w.episodes, i) && t.episodes != w.episodes { OpenStays(w.episodes, t.episodes, i); }
  }

  lemma TrackedStep(w: World, action: Action, w': World, i: int)
    requires Inv(w) && Next(w, action, w') && (Tracked(w, i) || (action.RecordBaseline? && action.id == i))
    ensures Tracked(w', i)
  {
    hide Inv, Recorded, BaselineRecorded, OpenFor, EventApplied, RebuildAll, StoreAll;
    match action
    case AddIngredient(id, item, change, newId) => RecordedTracks(w, id, item, change, newId, i);
    case ChangeIngredient(id, item, change, newId) =>
      IdsPositive(w, id);
      RecordedTracks(w, id, item, change, newId, i);
    case RecordBaseline(id, at, newId) => BaselineTracks(w, id, at, newId, i);
    case _ =>
  }

  lemma IdsPositive(w: World, id: int)
    requires Inv(w) && id in w.items
    ensures id > 0
  {
  }

  /**
   From the moment an ingredient is tracked, which it is when created, whenever it is not low, and after a
   baseline, it has an open episode exactly while it is low.
   */
  lemma {:induction false} LowIffOpen(ws: seq<World>, actions: seq<Action>, a: nat, b: nat, i: int)
    requires Behaviour(ws, actions) && a <= b < |ws| && Tracked(ws[a], i)
    ensures Tracked(ws[b], i)
    ensures i in ws[b].items ==> (ws[b].items[i].IsLow() <==> OpenFor(ws[b].episodes, i))
    decreases b
  {
    hide Inv, Next, Tracked;
    if a < b {
      LowIffOpen(ws, actions, a, b - 1, i);
      BehaviourInv(ws, actions, b - 1);
      TrackedStep(ws[b - 1], actions[b - 1], ws[b], i);
    }
    BehaviourInv(ws, actions, b);
    if i in ws[b].items { TrackedMeans(ws[b], i); }
  }

  lemma TrackedMeans(w: World, i: int)
    requires Inv(w) && Tracked(w, i) && i in w.items
    ensures w.items[i].IsLow() <==> OpenFor(w.episodes, i)
  {
  }

  /** A maintenance baseline makes an ingredient tracked, whatever it was before. */
  lemma BaselineStartsTracking(ws: seq<World>, actions: seq<Action>, a: nat, i: int)
    requires Behaviour(ws, actions) && a < |actions| && actions[a].RecordBaseline? && actions[a].id == i
    ensures Tracked(ws[a + 1], i)
  {
    hide Inv, Tracked;
    BehaviourInv(ws, actions, a);
    TrackedStep(ws[a], actions[a], ws[a + 1], i);
  }

  /** A row's time of occurrence is the newest of the events that set it: delivering an event never takes it back. */
  lemma OccurrenceNeverFalls(w: World, action: Action, w': World, i: int)
    requires action.StateEvent? && Next(w, action, w') && i in w'.states
    ensures i in w.states ==> w.states[i].occurredAt <= w'.states[i].occurredAt
    ensures w.states != w'.states && i == action.id ==>
              action.at <= w'.states[i].occurredAt && (w'.states[i].occurredAt == action.at || (i in w.states && w'.states[i].occurredAt == w.states[i].occurredAt))
    ensures i != action.id ==> i in w.states && w'.states[i] == w.states[i]
  {
  }

  /** An event that names an episode brings the projected copy up to the producer's row, and no other. */
  lemma EventSyncsEpisode(w: World, action: Action, w': World, k: nat)
    requires Inv(w) && (action.StateEvent? || action.LowEvent?) && Next(w, action, w')
    ensures if action.episode == Some(k) && k in w.episodes then k in w'.alerts && w'.alerts[k] == w.episodes[k]
            else (k in w'.alerts <==> k in w.alerts) && (k in w.alerts ==> w'.alerts[k] == w.alerts[k])
  {
    assert k in w.episodes ==> w.episodes[k].id == k;
    assert action.episode.Some? && action.episode.value in w.episodes ==> w.episodes[action.episode.value].id == action.episode.value;
  }
}
