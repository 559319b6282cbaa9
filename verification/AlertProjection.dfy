/**
 The alert consumer: a copy of each low-stock episode, and a revision-fenced copy of each ingredient's
 current state, refreshed by events in any order and by maintenance rebuilds.
 */
module AlertProjection {
  import opened Options
  import opened LowStockEpisodes
  import opened InventoryWriter

  datatype StateRow = StateRow(
    revision: int, name: string, unit: Unit, quantity: int, threshold: int, active: bool, low: bool,
    episode: Option<nat>, occurredAt: int)

  type States = map<int, StateRow>

  datatype Outcome = Processed | Skipped

  /** What the inventory service loads for one ingredient, under the restaurant lock. */
  datatype Loaded = Loaded(ingredientId: int, item: Ingredient, open: Option<nat>)

  /** The row a loaded state is shown as. */
  function Shown(current: Loaded, occurredAt: int): StateRow {
    var item := current.item;
    StateRow(item.revision, item.name, item.unit, item.quantity, item.threshold, item.active, item.IsLow(),
             if item.IsLow() then current.open else None, occurredAt)
  }

  /** An event shows the state as it is now, unless the row is already at this revision. */
  function EventApplied(states: States, current: Loaded, at: int): States {
    var i := current.ingredientId;
    if i in states && states[i].revision >= current.item.revision then states
    else states[i := Shown(current, if i in states && states[i].occurredAt > at then states[i].occurredAt else at)]
  }

  /** A rebuild refreshes a row at the same revision too; only a newer row is left alone. */
  function RebuildApplied(states: States, current: Loaded, now: int): States {
    var i := current.ingredientId;
    if i in states && states[i].revision > current.item.revision then states else states[i := Shown(current, now)]
  }

  function RebuildAll(states: States, loaded: seq<Loaded>, now: int): States
    decreases |loaded|
  {
    if loaded == [] then states else RebuildAll(RebuildApplied(states, loaded[0], now), loaded[1..], now)
  }

  function StoreAll(alerts: Episodes, history: seq<Episode>): Episodes
    decreases |history|
  {
    if history == [] then alerts else StoreAll(alerts[history[0].id := history[0]], history[1..])
  }

  class Projection {
    var alerts: Episodes
    var states: States

    constructor ()
      ensures alerts == map[] && states == map[]
    {
      alerts, states := map[], map[];
    }

    method StoreEpisodeFacts(facts: Episode)
      modifies this`alerts
      ensures alerts == old(alerts)[facts.id := facts]
    {
      alerts := alerts[facts.id := facts];
    }

    /** `facts` is the producer row of the episode the event names, if it names one that exists. */
    method ApplyStateChanged(current: Loaded, facts: Option<Episode>, at: int) returns (outcome: Outcome)
      modifies this
      ensures alerts == if facts.Some? then old(alerts)[facts.value.id := facts.value] else old(alerts)
      ensures states == EventApplied(old(states), current, at)
      ensures outcome == Skipped <==> current.ingredientId in old(states) && old(states)[current.ingredientId].revision >= current.item.revision
    {
      if facts.Some? {
        StoreEpisodeFacts(facts.value);
      }
      var i := current.ingredientId;
      if i in states {
        var row := states[i];
        if row.revision >= current.item.revision {
          return Skipped;
        }
        var when := if row.occurredAt > at then row.occurredAt else at;
        states := states[i := Shown(current, when)];
      } else {
        states := states[i := Shown(current, at)];
      }
      return Processed;
    }

    method ApplyLow(facts: Option<Episode>) returns (outcome: Outcome)
      modifies this`alerts
      ensures alerts == if facts.Some? then old(alerts)[facts.value.id := facts.value] else old(alerts)
      ensures outcome == Processed
    {
      if facts.Some? {
        StoreEpisodeFacts(facts.value);
      }
      return Processed;
    }

    method Rebuild(loaded: seq<Loaded>, history: seq<Episode>, now: int)
      modifies this
      ensures alerts == StoreAll(old(alerts), history)
      ensures states == RebuildAll(old(states), loaded, now)
    {
      for k := 0 to |history|
        invariant states == old(states)
        invariant StoreAll(alerts, history[k..]) == StoreAll(old(alerts), history)
      {
        assert history[k..][0] == history[k] && history[k..][1..] == history[k + 1..];
        StoreEpisodeFacts(history[k]);
      }
      for k := 0 to |loaded|
        invariant alerts == StoreAll(old(alerts), history)
        invariant RebuildAll(states, loaded[k..], now) == RebuildAll(old(states), loaded, now)
      {
        assert loaded[k..][0] == loaded[k] && loaded[k..][1..] == loaded[k + 1..];
        var current := loaded[k];
        if current.ingredientId in states && states[current.ingredientId].revision > current.item.revision {
          continue;
        }
        states := states[current.ingredientId := Shown(current, now)];
      }
    }
  }

  lemma {:induction false} StoreAllAt(alerts: Episodes, history: seq<Episode>, id: nat)
    requires forall a, b :: 0 <= a < b < |history| ==> history[a].id != history[b].id
    ensures (exists e :: e in history && e.id == id) || id in alerts <==> id in StoreAll(alerts, history)
    ensures forall e :: e in history && e.id == id ==> id in StoreAll(alerts, history) && StoreAll(alerts, history)[id] == e
    ensures id in alerts && (forall e :: e in history ==> e.id != id) ==> StoreAll(alerts, history)[id] == alerts[id]
    decreases |history|
  {
    if history != [] {
      var head, tail := history[0], history[1..];
      assert forall e :: e in history <==> e == head || e in tail;
      assert head in history;
      assert forall e :: e in tail ==> e.id != head.id;
      StoreAllAt(alerts[head.id := head], tail, id);
    }
  }

  lemma {:induction false} RebuildAllAt(states: States, loaded: seq<Loaded>, now: int, i: int)
    requires forall a, b :: 0 <= a < b < |loaded| ==> loaded[a].ingredientId != loaded[b].ingredientId
    ensures forall c :: c in loaded && c.ingredientId == i ==>
              i in RebuildAll(states, loaded, now) && RebuildAll(states, loaded, now)[i] == RebuildApplied(states, c, now)[i]
    ensures (forall c :: c in loaded ==> c.ingredientId != i) ==>
              (i in RebuildAll(states, loaded, now) <==> i in states) && (i in states ==> RebuildAll(states, loaded, now)[i] == states[i])
    decreases |loaded|
  {
    if loaded != [] {
      var head, tail := loaded[0], loaded[1..];
      assert forall c :: c in loaded <==> c == head || c in tail;
      assert head in loaded;
      assert forall c :: c in tail ==> c.ingredientId != head.ingredientId;
      RebuildAllAt(RebuildApplied(states, head, now), tail, now, i);
    }
  }
}
