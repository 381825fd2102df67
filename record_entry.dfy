/**
 * The operator's entry of an actual quantity for one hour, composed from
 * the core pieces in the order the operator's record view runs them:
 * editability guard, entered fields, save, cumulative refresh, totals.
 */
module RecordEntry {
  import opened Common
  import opened Records
  import opened Blanks

  datatype EntryResult = NotFound | NotEditable | Entered

  /** The stored row once the operator's figure is entered and saved: filled, stamped, deviation recomputed. */
  function EnteredRow(r: Row, actual: nat, now: int, user: nat): (e: Row)
    ensures e.actualQuantity == actual && e.isFilled && e.filledAt == Some(now) && e.filledBy == Some(user)
    ensures e.deviation + e.plannedQuantity == actual
    ensures e.(actualQuantity := r.actualQuantity, isFilled := r.isFilled, filledAt := r.filledAt,
               filledBy := r.filledBy, deviation := r.deviation) == r
  {
    Saved(r.(actualQuantity := actual, isFilled := true, filledAt := Some(now), filledBy := Some(user)))
  }

  /**
   * Enters `actual` for the given hour of the blank at time `now` on behalf
   * of `user`. A missing hour or a blank that is no longer editable changes
   * nothing.
   */
  method EnterActual(blank: PABlank, hour: nat, actual: nat, now: int, user: nat) returns (result: EntryResult)
    requires blank.Valid() && blank.persisted
    modifies blank`records, blank`totalPlan, blank`totalFact, blank`totalDeviation, blank`totalDowntime,
             blank`completionPercentage
    ensures blank.Valid()
    ensures result == NotFound <==> IndexOfHour(old(blank.records), hour).None?
    ensures result == NotEditable <==> IndexOfHour(old(blank.records), hour).Some? && !blank.IsEditable()
    ensures result != Entered ==> unchanged(blank)
    ensures result == Entered ==>
      blank.records == AfterEntry(old(blank.records), IndexOfHour(old(blank.records), hour).value, actual, now, user)
    ensures result == Entered ==> TotalsMatch(blank)
  {
    var found := IndexOfHour(blank.records, hour);
    if found.None? {
      return NotFound;
    }
    if !blank.IsEditable() {
      return NotEditable;
    }
    Enter(blank, found.value, actual, now, user);
    return Entered;
  }

  /** The stored rows after an entry at position j: the entered row replaces it, then the refresh up to its hour. */
  function AfterEntry(rows: seq<Row>, j: nat, actual: nat, now: int, user: nat): seq<Row>
    requires j < |rows|
  {
    RefreshedPrefix(rows[j := EnteredRow(rows[j], actual, now, user)], rows[j].hourNumber)
  }

  /** The blank's totals are those of its rows. */
  predicate TotalsMatch(blank: PABlank)
    reads blank
  {
    && blank.totalPlan == PlanSum(blank.records) && blank.totalFact == FactSum(blank.records)
    && blank.totalDeviation == blank.totalFact - blank.totalPlan
    && blank.totalDowntime == DowntimeSum(blank.records)
    && blank.completionPercentage == Completion(blank.totalFact, blank.totalPlan)
  }

  /** The entry itself, once the hour is found and the blank is editable. */
  method Enter(blank: PABlank, j: nat, actual: nat, now: int, user: nat)
    requires blank.Valid() && blank.persisted && j < |blank.records|
    modifies blank`records, blank`totalPlan, blank`totalFact, blank`totalDeviation, blank`totalDowntime,
             blank`completionPercentage
    ensures blank.Valid() && TotalsMatch(blank)
    ensures blank.records == AfterEntry(old(blank.records), j, actual, now, user)
  {
    ghost var rows0 := blank.records;
    ghost var h := rows0[j].hourNumber;
    ghost var filled := rows0[j].(actualQuantity := actual, isFilled := true, filledAt := Some(now),
                                  filledBy := Some(user));
    ghost var entered := EnteredRow(rows0[j], actual, now, user);
    var record := new PARecord.Load(blank.records[j]);
    record.FillActual(actual, now, user);
    SaveOverridesDeviation(filled, actual - rows0[j].plannedQuantity);
    IndexOfHourAt(rows0, j);
    blank.SaveRecord(record);
    assert record.Snapshot() == entered && record.hourNumber == h;
    ghost var rows1 := blank.records;
    assert rows1 == rows0[j := entered];
    blank.CalculateCumulative(record);
    assert blank.records == RefreshedPrefix(rows1, h);
    blank.RecalculateTotals();
  }

  /** Replacing one row changes each sum by the difference at that row. */
  lemma {:induction false} SumsAfterReplace(rows: seq<Row>, j: nat, e: Row)
    requires j < |rows|
    ensures PlanSum(rows[j := e]) + rows[j].plannedQuantity == PlanSum(rows) + e.plannedQuantity
    ensures FactSum(rows[j := e]) + rows[j].actualQuantity == FactSum(rows) + e.actualQuantity
    decreases |rows|
  {
    var last := |rows| - 1;
    if j == last {
      assert rows[j := e][..last] == rows[..last];
    } else {
      assert rows[j := e][..last] == rows[..last][j := e];
      SumsAfterReplace(rows[..last], j, e);
    }
  }

  /**
   * After an entry the blank's total fact moves by exactly the change at
   * the entered hour, and its total plan does not move.
   */
  lemma EntryMovesTotalsByTheChange(rows: seq<Row>, j: nat, actual: nat, now: int, user: nat)
    requires j < |rows|
    ensures var after := RefreshedPrefix(rows[j := EnteredRow(rows[j], actual, now, user)], rows[j].hourNumber);
      && PlanSum(after) == PlanSum(rows)
      && FactSum(after) + rows[j].actualQuantity == FactSum(rows) + actual
  {
    var entered := rows[j := EnteredRow(rows[j], actual, now, user)];
    var after := RefreshedPrefix(entered, rows[j].hourNumber);
    RefreshedPrefixSums(entered, rows[j].hourNumber);
    SumsFollowQuantities(after, entered);
    SumsAfterReplace(rows, j, EnteredRow(rows[j], actual, now, user));
  }

  /**
   * The entered hour's stored row keeps its old cumulative figures: the
   * refresh stops short of it and the edited instance, which did receive
   * the new running sums, is not saved again.
   */
  lemma EnteredRowKeepsStoredCumulative(rows: seq<Row>, j: nat, actual: nat, now: int, user: nat)
    requires j < |rows|
    ensures var after := RefreshedPrefix(rows[j := EnteredRow(rows[j], actual, now, user)], rows[j].hourNumber);
      && after[j].actualQuantity == actual
      && after[j].cumulativePlan == rows[j].cumulativePlan
      && after[j].cumulativeFact == rows[j].cumulativeFact
      && after[j].cumulativeDeviation == rows[j].cumulativeDeviation
  {
  }
}
