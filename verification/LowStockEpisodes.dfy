/**
 The producer's low-stock episode table: its check constraints, the partial unique index that allows
 one open episode per ingredient, and the trigger that retains rows and freezes their facts.

 Quantities are in thousandths of the base unit (the columns are Numeric(12, 3)).
 */
module LowStockEpisodes {
  import opened Options

  const MAX_QUANTITY := 999_999_999_999

  datatype Unit = Grams | Millilitres | Pieces

  datatype Source = IngredientCreation | IngredientUpdate | StockCommand | OrderAcceptance | MaintenanceInitialization

  datatype Reason = StockRecovered | ThresholdChanged | Archived

  datatype Opening = Opening(
    organizationId: int, restaurantId: int, ingredientId: int, ingredientName: string, unit: Unit,
    quantity: int, threshold: int, openedAt: int, revision: int, source: Source,
    actor: Option<int>, orderId: Option<int>, suppressed: bool)

  /** The resolution columns are separately nullable; a constraint makes them all-or-nothing. */
  datatype Episode = Episode(
    id: nat, opening: Opening,
    resolvedAt: Option<int>, reason: Option<Reason>, closingQuantity: Option<int>, closingThreshold: Option<int>,
    closingActive: Option<bool>, resolutionRevision: Option<int>, resolutionSource: Option<Source>,
    resolutionActor: Option<int>, resolutionOrder: Option<int>)
  {
    predicate IsOpen() { resolvedAt.None? }
  }

  type Episodes = map<nat, Episode>

  predicate Blank(s: string) {
    forall i :: 0 <= i < |s| ==> s[i] == ' '
  }

  predicate OpeningChecks(o: Opening) {
    && o.restaurantId > 0 && o.ingredientId > 0 && !Blank(o.ingredientName)
    && 0 <= o.quantity <= MAX_QUANTITY && 0 <= o.threshold <= MAX_QUANTITY && o.quantity <= o.threshold
    && o.revision >= 1
    && (o.source == OrderAcceptance <==> o.orderId.Some?)
    && (o.suppressed ==> o.source == MaintenanceInitialization)
  }

  predicate ResolutionComplete(e: Episode) {
    || (e.resolvedAt.None? && e.reason.None? && e.closingQuantity.None? && e.closingThreshold.None? && e.closingActive.None?
        && e.resolutionRevision.None? && e.resolutionSource.None? && e.resolutionActor.None? && e.resolutionOrder.None?)
    || (e.resolvedAt.Some? && e.reason.Some? && e.closingQuantity.Some? && e.closingThreshold.Some? && e.closingActive.Some?
        && e.resolutionRevision.Some? && e.resolutionSource.Some?)
  }

  predicate ResolutionChecks(e: Episode) {
    && ResolutionComplete(e)
    && (e.resolutionSource == Some(OrderAcceptance) <==> e.resolutionOrder.Some?)
    && (e.resolutionRevision.Some? ==> e.resolutionRevision.value > e.opening.revision)
    && (e.resolvedAt.Some? ==> !e.closingActive.value || e.closingQuantity.value > e.closingThreshold.value)
  }

  predicate Checks(e: Episode) {
    OpeningChecks(e.opening) && ResolutionChecks(e)
  }

  predicate OpenFor(rows: Episodes, ingredientId: int) {
    exists k :: k in rows && rows[k].IsOpen() && rows[k].opening.ingredientId == ingredientId
  }

  predicate InsertAllowed(rows: Episodes, e: Episode) {
    e.id !in rows && Checks(e) && (e.IsOpen() ==> !OpenFor(rows, e.opening.ingredientId))
  }

  /** The trigger, the checks and the unique index together; a resolved row never conflicts. */
  predicate UpdateAllowed(rows: Episodes, id: nat, e: Episode) {
    && id in rows && e.id == id && e.opening == rows[id].opening
    && rows[id].IsOpen() && !e.IsOpen() && Checks(e)
  }

  /** What holds of the table whatever was attempted on it. */
  ghost predicate TableOk(rows: Episodes) {
    && (forall k :: k in rows ==> rows[k].id == k && Checks(rows[k]))
    && (forall j, k :: j in rows && k in rows && BothOpen(rows[j], rows[k]) ==> j == k)
  }

  predicate BothOpen(a: Episode, b: Episode) {
    a.IsOpen() && b.IsOpen() && a.opening.ingredientId == b.opening.ingredientId
  }

  /** `older` is an earlier or equal version of `newer`: same opening, and a resolution is final. */
  predicate EarlierVersion(older: Episode, newer: Episode) {
    older.id == newer.id && older.opening == newer.opening && (older.IsOpen() || older == newer)
  }

  ghost predicate Evolves(before: Episodes, after: Episodes) {
    forall k :: k in before ==> k in after && EarlierVersion(before[k], after[k])
  }

  class EpisodeTable {
    var rows: Episodes

    constructor ()
      ensures rows == map[] && TableOk(rows)
    {
      rows := map[];
    }

    method Insert(e: Episode) returns (accepted: bool)
      requires TableOk(rows)
      modifies this
      ensures accepted <==> InsertAllowed(old(rows), e)
      ensures rows == if accepted then old(rows)[e.id := e] else old(rows)
      ensures TableOk(rows) && Evolves(old(rows), rows)
    {
      accepted := e.id !in rows && Checks(e) && (!e.IsOpen() || !OpenFor(rows, e.opening.ingredientId));
      if accepted {
        InsertKeepsTable(rows, e);
        rows := rows[e.id := e];
      }
    }

    /** An update must record the resolution of an open episode, and nothing else. */
    method Update(id: nat, e: Episode) returns (accepted: bool)
      requires TableOk(rows)
      modifies this
      ensures accepted <==> UpdateAllowed(old(rows), id, e)
      ensures rows == if accepted then old(rows)[id := e] else old(rows)
      ensures TableOk(rows) && Evolves(old(rows), rows)
    {
      if id !in rows {
        return false;
      }
      var current := rows[id];
      if e.id != current.id || e.opening != current.opening {
        return false;
      }
      if !current.IsOpen() {
        return false;
      }
      if e.IsOpen() {
        return false;
      }
      if !Checks(e) {
        return false;
      }
      rows := rows[id := e];
      return true;
    }

    /** Deleting a retained row is refused; deleting a missing one affects nothing. */
    method Delete(id: nat) returns (accepted: bool)
      ensures accepted <==> id !in rows
    {
      accepted := id !in rows;
    }
  }

  lemma InsertKeepsTable(rows: Episodes, e: Episode)
    requires TableOk(rows) && InsertAllowed(rows, e)
    ensures TableOk(rows[e.id := e])
  {
    var rows' := rows[e.id := e];
    forall j, k | j in rows' && k in rows' && BothOpen(rows'[j], rows'[k]) ensures j == k {
    }
  }

  // ---------------------------------------------------------------------------
  // Over whole runs of attempted statements

  datatype Statement = Insert(row: Episode) | Update(id: nat, row: Episode) | Delete(id: nat)

  function Executed(rows: Episodes, statement: Statement): Episodes {
    match statement
    case Insert(row) => if InsertAllowed(rows, row) then rows[row.id := row] else rows
    case Update(id, row) => if UpdateAllowed(rows, id, row) then rows[id := row] else rows
    case Delete(id) => rows
  }

  function RunStatements(rows: Episodes, statements: seq<Statement>): Episodes
    decreases |statements|
  {
    if statements == [] then rows else RunStatements(Executed(rows, statements[0]), statements[1..])
  }

  lemma EvolvesTransitively(a: Episodes, b: Episodes, c: Episodes)
    requires Evolves(a, b) && Evolves(b, c)
    ensures Evolves(a, c)
  {
    forall k | k in a ensures k in c && EarlierVersion(a[k], c[k]) {
      assert k in b && EarlierVersion(a[k], b[k]) && EarlierVersion(b[k], c[k]);
    }
  }

  /**
   Whatever statements are attempted: no row is lost, opening facts never change, a resolution is recorded
   at most once and is then final, and each ingredient has at most one open episode.
   */
  lemma {:induction false} FactsAreRetained(rows: Episodes, statements: seq<Statement>)
    requires TableOk(rows)
    ensures TableOk(RunStatements(rows, statements)) && Evolves(rows, RunStatements(rows, statements))
    decreases |statements|
  {
    if statements != [] {
      var next := Executed(rows, statements[0]);
      if statements[0].Insert? && InsertAllowed(rows, statements[0].row) {
        InsertKeepsTable(rows, statements[0].row);
      }
      FactsAreRetained(next, statements[1..]);
      EvolvesTransitively(rows, next, RunStatements(next, statements[1..]));
    }
  }

  /** Every recorded opening was low, has a revision and a named place, and says rightly where it came from. */
  lemma OpeningsAreReal(rows: Episodes, k: nat)
    requires TableOk(rows) && k in rows
    ensures var o := rows[k].opening;
            && rows[k].id == k && 0 <= o.quantity <= o.threshold <= 999_999_999_999 && o.revision >= 1 && o.restaurantId > 0 && o.ingredientId > 0
            && !Blank(o.ingredientName) && (o.orderId.Some? <==> o.source == OrderAcceptance) && (o.suppressed ==> o.source == MaintenanceInitialization)
  {
    assert Checks(rows[k]);
  }

  /** An open row has no trace of a resolution; a resolved one has all of it, and names an order exactly for an acceptance. */
  lemma ResolutionsAreWhole(rows: Episodes, k: nat)
    requires TableOk(rows) && k in rows
    ensures var e := rows[k];
            if e.IsOpen() then e == Episode(k, e.opening, None, None, None, None, None, None, None, None, None)
            else e.reason.Some? && e.resolutionSource.Some? && (e.resolutionOrder.Some? <==> e.resolutionSource == Some(OrderAcceptance))
  {
    assert Checks(rows[k]);
  }

  /** Every recorded resolution is newer than its opening and closes a state that is not low. */
  lemma ResolutionsAreReal(rows: Episodes, k: nat)
    requires TableOk(rows) && k in rows && !rows[k].IsOpen()
    ensures rows[k].resolutionRevision.Some? && rows[k].resolutionRevision.value > rows[k].opening.revision
    ensures rows[k].closingActive.Some? && rows[k].closingQuantity.Some? && rows[k].closingThreshold.Some?
    ensures !(rows[k].closingActive.value && rows[k].closingQuantity.value <= rows[k].closingThreshold.value)
  {
    assert Checks(rows[k]);
  }
}
