/**
 * The validation rules of the blank creation forms: the minimum plan, the
 * one-blank-per-(workplace, date, shift) rule, and the date span accepted
 * by bulk creation. Dates are day numbers.
 */
module BlankForms {
  import opened Common
  import opened Blanks
  import opened Generator

  /** Smallest plan the single-blank form accepts. */
  const MinPlannedQuantity: int := 1

  /** Longest span, in days between the two dates, that bulk creation accepts. */
  const MaxBulkPeriodDays: int := 30

  datatype FormError =
    | Required
    | BelowMinimum
    | DuplicateBlank
    | FromAfterTo
    | PeriodTooLong

  /**
   * The `planned_quantity` field: required, and at least 1. The value that
   * passes is the natural number the blank is created with.
   */
  function CleanPlannedQuantity(value: Option<int>): (r: Result<nat, FormError>)
    ensures r.Ok? <==> value.Some? && value.value >= MinPlannedQuantity
    ensures r.Ok? ==> r.value == value.value && r.value > 0
    ensures value.None? ==> r == Err(Required)
    ensures value.Some? && value.value < MinPlannedQuantity ==> r == Err(BelowMinimum)
  {
    match value
    case None => Err(Required)
    case Some(v) => if v < MinPlannedQuantity then Err(BelowMinimum) else Ok(v)
  }

  /**
   * A plan the form accepts never makes the classifier divide by zero:
   * the type is always determined.
   */
  lemma AcceptedPlanIsClassifiable(value: Option<int>, workplace: Workplace)
    requires CleanPlannedQuantity(value).Ok?
    ensures DetermineBlankType(workplace, CleanPlannedQuantity(value).value).Ok?
    ensures ChosenType(workplace, CleanPlannedQuantity(value).value, None).Ok?
  {
  }

  /**
   * `BlankCreateForm.clean`: the uniqueness query runs only when workplace,
   * date and shift were all cleaned; it rejects a key that already exists.
   */
  function BlankCreateClean(workplace: Option<nat>, date: Option<int>, shift: Option<nat>,
                            existing: set<BlankKey>): (r: Outcome<FormError>)
    ensures r.Fail? <==> (workplace.Some? && date.Some? && shift.Some?
                          && BlankKey(workplace.value, date.value, shift.value) in existing)
    ensures r.Fail? ==> r.error == DuplicateBlank
  {
    if workplace.Some? && date.Some? && shift.Some? then
      if BlankKey(workplace.value, date.value, shift.value) in existing then Fail(DuplicateBlank) else Pass
    else Pass
  }

  /**
   * When the form has all three fields, it passes exactly for the keys the
   * blank table can still take: adding the new blank keeps the keys unique.
   */
  lemma FormGuardKeepsKeysUnique(w: nat, d: int, s: nat, existing: set<BlankKey>)
    requires BlankCreateClean(Some(w), Some(d), Some(s), existing).Pass?
    ensures |existing + {BlankKey(w, d, s)}| == |existing| + 1
  {
  }

  /**
   * `BlankBulkCreateForm.clean`: with both dates present, the start may not
   * follow the end and the span may not exceed 30 days; a missing date
   * skips both checks.
   */
  function BulkCreateClean(dateFrom: Option<int>, dateTo: Option<int>): (r: Outcome<FormError>)
    ensures r.Pass? <==> (dateFrom.None? || dateTo.None?
                          || 0 <= dateTo.value - dateFrom.value <= MaxBulkPeriodDays)
    ensures dateFrom.Some? && dateTo.Some? && dateFrom.value > dateTo.value ==> r == Fail(FromAfterTo)
    ensures dateFrom.Some? && dateTo.Some? && dateTo.value - dateFrom.value > MaxBulkPeriodDays
            ==> r == Fail(PeriodTooLong)
  {
    if dateFrom.Some? && dateTo.Some? then
      if dateFrom.value > dateTo.value then Fail(FromAfterTo)
      else if dateTo.value - dateFrom.value > MaxBulkPeriodDays then Fail(PeriodTooLong)
      else Pass
    else Pass
  }

  /** The dates a bulk creation covers, both ends included. */
  function BulkDates(dateFrom: int, dateTo: int): (days: seq<int>)
    ensures dateFrom <= dateTo ==> |days| == dateTo - dateFrom + 1
    ensures dateFrom > dateTo ==> days == []
    ensures forall k :: 0 <= k < |days| ==> days[k] == dateFrom + k && days[k] <= dateTo
    decreases dateTo - dateFrom
  {
    if dateFrom > dateTo then [] else [dateFrom] + BulkDates(dateFrom + 1, dateTo)
  }

  /**
   * An accepted period covers at least one and at most 31 dates; a span of
   * exactly 30 days is the longest accepted, and 31 days is refused.
   */
  lemma {:induction false} AcceptedPeriodLength(dateFrom: int, dateTo: int)
    requires BulkCreateClean(Some(dateFrom), Some(dateTo)).Pass?
    ensures 1 <= |BulkDates(dateFrom, dateTo)| <= MaxBulkPeriodDays + 1
    ensures BulkCreateClean(Some(dateFrom), Some(dateFrom + MaxBulkPeriodDays)).Pass?
    ensures BulkCreateClean(Some(dateFrom), Some(dateFrom + MaxBulkPeriodDays + 1)) == Fail(PeriodTooLong)
  {
  }
}
