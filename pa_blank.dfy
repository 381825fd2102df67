/**
 * The production-accounting blank: its type and status, the parameters
 * computed once on first save (takt time, production rate, hourly plan,
 * capacity), the roll-up of its hourly rows into totals, the in-progress
 * completion figure and its traffic light, and the cumulative refresh run
 * after one hour is edited.
 */
module Blanks {
  import opened Common
  import opened Shifts
  import opened Records

  datatype BlankType = Type1 | Type2 | Type3 | Type4 | Type5
  datatype BlankStatus = Draft | Active | Completed | Cancelled

  /** The workplace columns the core reads. */
  datatype Workplace = Workplace(id: nat, passportCapacity: Option<nat>, achievedCapacity: Option<nat>)

  /** The identity of a blank: at most one per (workplace, date, shift). */
  datatype BlankKey = BlankKey(workplace: nat, date: int, shift: nat)

  /**
   * Why a blank could not be created: one already exists for the key, no
   * shift was given, or the classifier divided by a zero planned quantity.
   */
  datatype CreateError = AlreadyExists | MissingShift | ZeroPlannedQuantity

  /** The parameters computed on first save; None is an unset (NULL) column. */
  datatype Parameters = Parameters(
    taktTime: Option<real>,
    productionRate: Option<real>,
    hourlyPlan: Option<nat>,
    workplaceCapacity: Option<nat>)

  const Unset: Parameters := Parameters(None, None, None, None)

  /** Passport capacity if it is set and non-zero, else the achieved capacity. */
  function CapacityFor(w: Workplace): (c: Option<nat>)
    ensures Truthy(c) <==> Truthy(w.passportCapacity) || Truthy(w.achievedCapacity)
    ensures Truthy(w.passportCapacity) ==> c == w.passportCapacity
  {
    Or(w.passportCapacity, w.achievedCapacity)
  }

  /** 3600 / (60 W / Q) is 60 Q / W, and the rate and takt time multiply to an hour. */
  lemma RateIdentity(w: int, q: int)
    requires w > 0 && q > 0
    ensures var takt := (w * 60) as real / q as real;
      && takt > 0.0
      && (3600.0 / takt) * takt == 3600.0
      && (3600.0 / takt) * w as real == (60 * q) as real
  {
    var takt := (w * 60) as real / q as real;
    assert takt * q as real == (w * 60) as real;
    var rate := 3600.0 / takt;
    assert rate * takt == 3600.0;
    calc {
      rate * w as real * 60.0;
      rate * (takt * q as real);
      (rate * takt) * q as real;
      3600.0 * q as real;
    }
  }

  /** A plan of h per hour over w working minutes covers 60 q when h is at least 60 q / w. */
  lemma CeilingCoversRate(h: int, rate: real, w: int, q: int)
    requires w > 0 && rate <= h as real && rate * w as real == (60 * q) as real
    ensures h * w >= 60 * q
  {
    assert (h * w) as real == h as real * w as real;
    assert h as real * w as real >= rate * w as real;
  }

  /**
   * The parameters a blank computes on its first save. Nothing happens
   * without a planned quantity. Takt time is working seconds per unit and is
   * stored even when it is not positive; only a positive takt time sets the
   * rate (units per hour) and the hourly plan (the rate rounded up). Type 2
   * blanks take the workplace capacity.
   */
  function ComputedParameters(p: Parameters, shift: Shift, plannedQuantity: nat, blankType: BlankType, workplace: Workplace): (r: Parameters)
    ensures plannedQuantity == 0 ==> r == p
    ensures plannedQuantity > 0 ==> r.taktTime.Some?
    ensures r.workplaceCapacity == if plannedQuantity > 0 && blankType == Type2 then CapacityFor(workplace) else p.workplaceCapacity
    ensures (p.productionRate.None? || p.productionRate.value > 0.0) ==> (r.productionRate.None? || r.productionRate.value > 0.0)
  {
    if plannedQuantity == 0 then p
    else
      var w := WorkingTimeMinutes(shift);
      var takt := (w * 60) as real / plannedQuantity as real;
      var p1 := p.(taktTime := Some(takt));
      var p2 :=
        if takt > 0.0 then
          var rate := 3600.0 / takt;
          p1.(productionRate := Some(rate), hourlyPlan := Some(CeilReal(rate)))
        else
          p1;
      if blankType == Type2 then p2.(workplaceCapacity := CapacityFor(workplace)) else p2
  }

  /** The computed takt time is the working time in seconds per planned unit. */
  lemma TaktFormula(p: Parameters, shift: Shift, plannedQuantity: nat, blankType: BlankType, workplace: Workplace)
    requires plannedQuantity > 0
    ensures ComputedParameters(p, shift, plannedQuantity, blankType, workplace).taktTime.value * plannedQuantity as real
      == (WorkingTimeMinutes(shift) * 60) as real
  {
    TaktTimesQuantity(WorkingTimeMinutes(shift), plannedQuantity);
  }

  /**
   * With a positive working time W the rate is 60 Q / W units an hour and
   * the hourly plan is its ceiling, so hourly plan times W covers 60 Q.
   */
  lemma RateFormulas(p: Parameters, shift: Shift, plannedQuantity: nat, blankType: BlankType, workplace: Workplace)
    requires plannedQuantity > 0 && WorkingTimeMinutes(shift) > 0
    ensures var r := ComputedParameters(p, shift, plannedQuantity, blankType, workplace);
      var w := WorkingTimeMinutes(shift);
      && r.productionRate.Some? && r.hourlyPlan.Some?
      && r.productionRate.value * w as real == (60 * plannedQuantity) as real
      && r.productionRate.value <= r.hourlyPlan.value as real < r.productionRate.value + 1.0
      && r.hourlyPlan.value * w >= 60 * plannedQuantity
  {
    var w := WorkingTimeMinutes(shift);
    RateOfWorkingTime(w, plannedQuantity);
  }

  /** The rate and hourly plan computed from a positive working time w and a plan q. */
  lemma RateOfWorkingTime(w: int, q: int)
    requires w > 0 && q > 0
    ensures var takt := (w * 60) as real / q as real; var rate := 3600.0 / takt;
      && takt > 0.0
      && rate * w as real == (60 * q) as real
      && CeilReal(rate) >= 0
      && CeilReal(rate) * w >= 60 * q
  {
    var takt := (w * 60) as real / q as real;
    RateIdentity(w, q);
    var rate := 3600.0 / takt;
    CeilingCoversRate(CeilReal(rate), rate, w, q);
  }

  /** Without a positive working time the rate and hourly plan keep their values. */
  lemma NoRateWithoutWorkingTime(p: Parameters, shift: Shift, plannedQuantity: nat, blankType: BlankType, workplace: Workplace)
    requires plannedQuantity > 0 && WorkingTimeMinutes(shift) <= 0
    ensures var r := ComputedParameters(p, shift, plannedQuantity, blankType, workplace);
      r.productionRate == p.productionRate && r.hourlyPlan == p.hourlyPlan
  {
    TaktNotPositive(WorkingTimeMinutes(shift), plannedQuantity);
  }

  /** The takt time times the planned quantity is the working time in seconds. */
  lemma TaktTimesQuantity(w: int, q: int)
    requires q > 0
    ensures ((w * 60) as real / q as real) * q as real == (w * 60) as real
  {
  }

  /** No working time gives no positive takt time. */
  lemma TaktNotPositive(w: int, q: int)
    requires w <= 0 && q > 0
    ensures (w * 60) as real / q as real <= 0.0
  {
  }

  /** Blank completion in percent: fact over plan times 100, or 0 with no plan. */
  function Completion(fact: nat, plan: nat): (p: real)
    ensures p >= 0.0
    ensures plan == 0 || fact == 0 ==> p == 0.0
    ensures plan > 0 ==> p * plan as real == fact as real * 100.0
  {
    if plan > 0 then fact as real / plan as real * 100.0 else 0.0
  }

  /** n / d rounded to an integer, ties to the even neighbour (Decimal's default rounding). */
  function RoundHalfEven(n: nat, d: nat): (r: nat)
    requires d > 0
    ensures -(d as int) <= 2 * (r * d - n) <= d
    ensures 2 * (r * d - n) == d || 2 * (n - r * d) == d ==> r % 2 == 0
  {
    var q := n / d;
    var m := n % d;
    RoundingCandidates(n, d);
    if 2 * m > d then q + 1
    else if 2 * m < d then q
    else if q % 2 == 0 then q
    else q + 1
  }

  /** The two candidates, quotient and quotient plus one, miss n by the remainder and by its complement. */
  lemma RoundingCandidates(n: nat, d: nat)
    requires d > 0
    ensures 0 <= n % d < d
    ensures (n / d) * d - n == -(n % d)
    ensures (n / d + 1) * d - n == d - n % d
  {
    assert (n / d + 1) * d == (n / d) * d + d;
  }

  /** fact / plan * 100 rounded to two decimal places. */
  function RoundedPercent(fact: nat, plan: nat): (p: real)
    requires plan > 0
    ensures p >= 0.0
  {
    RoundHalfEven(fact * 10000, plan) as real / 100.0
  }

  /** The rounded percentage is within half a hundredth of the exact one. */
  lemma RoundedPercentIsClose(fact: nat, plan: nat)
    requires plan > 0
    ensures -0.005 <= RoundedPercent(fact, plan) - Completion(fact, plan) <= 0.005
  {
    CloseFromBounds(RoundHalfEven(fact * 10000, plan), plan, fact, RoundedPercent(fact, plan), Completion(fact, plan));
  }

  /** The rounding bound on the scaled integer carries over to the percentages. */
  lemma CloseFromBounds(q: nat, plan: nat, fact: nat, rounded: real, exact: real)
    requires plan > 0 && -(plan as int) <= 2 * (q * plan - fact * 10000) <= plan
    requires rounded == q as real / 100.0 && exact * plan as real == fact as real * 100.0
    ensures -0.005 <= rounded - exact <= 0.005
  {
    var d := plan as real;
    var err := q as real * d - fact as real * 10000.0;
    RoundingErrorAsReal(q, plan, fact);
    ScaledError(q as real, exact, d, fact as real, rounded - exact);
    ErrorBound(rounded - exact, d, err);
  }

  /** The integer rounding bound, read over the reals. */
  lemma RoundingErrorAsReal(q: nat, plan: nat, fact: nat)
    requires -(plan as int) <= 2 * (q * plan - fact * 10000) <= plan
    ensures -(plan as real) <= 2.0 * (q as real * plan as real - fact as real * 10000.0) <= plan as real
  {
    assert (q * plan) as real == q as real * plan as real;
  }

  /** x = q / 100 - e with e * d = 100 f gives x * d = (q * d - 10000 f) / 100. */
  lemma ScaledError(q: real, e: real, d: real, f: real, x: real)
    requires e * d == f * 100.0 && x == q / 100.0 - e
    ensures x * d == (q * d - f * 10000.0) / 100.0
  {
  }

  /** x * d = err / 100 with |2 err| <= d bounds x by 0.005. */
  lemma ErrorBound(x: real, d: real, err: real)
    requires d > 0.0 && -d <= 2.0 * err <= d && x * d == err / 100.0
    ensures -0.005 <= x <= 0.005
  {
    assert -(0.005 * d) <= x * d <= 0.005 * d;
  }

  /** The traffic-light thresholds read against a completion percentage. */
  function ThresholdColor(p: real): (c: Color)
    ensures c != Secondary
  {
    if p >= 100.0 then Success
    else if p >= 90.0 then Warning
    else Danger
  }

  /** A blank and a filled, planned hour use the same thresholds. */
  lemma ThresholdsMatchRecordColor(r: Row)
    requires r.isFilled && r.plannedQuantity > 0
    ensures ThresholdColor(CompletionPercentage(r)) == Records.StatusColor(r)
  {
    StatusColorByCompletion(r);
  }

  /** As written: a row counts as elapsed when its end time of day is at or before now. */
  predicate ElapsedAsWritten(r: Row, now: MinuteOfDay) {
    r.endTime <= now
  }

  /**
   * Corrected: a row counts as elapsed when the shift has started and the
   * row ends no later than now, both measured in minutes from the shift start.
   */
  predicate Elapsed(r: Row, shiftStart: MinuteOfDay, now: MinuteOfDay) {
    shiftStart <= now && (r.endTime - shiftStart) % MinutesPerDay <= now - shiftStart
  }

  /** Planned quantity of the rows a selector picks. */
  function PlanWhere(rows: seq<Row>, picked: Row -> bool): nat
    decreases |rows|
  {
    if rows == [] then 0
    else PlanWhere(rows[1..], picked) + (if picked(rows[0]) then rows[0].plannedQuantity else 0)
  }

  /** Actual quantity of the rows a selector picks. */
  function FactWhere(rows: seq<Row>, picked: Row -> bool): nat
    decreases |rows|
  {
    if rows == [] then 0
    else FactWhere(rows[1..], picked) + (if picked(rows[0]) then rows[0].actualQuantity else 0)
  }

  /** Selections that agree row by row, and agree on the quantities of the picked rows, give the same sums. */
  lemma {:induction false} WhereFollowsPicked(a: seq<Row>, pa: Row -> bool, b: seq<Row>, pb: Row -> bool)
    requires |a| == |b|
    requires forall k :: 0 <= k < |a| ==> pa(a[k]) == pb(b[k])
    requires forall k :: 0 <= k < |a| && pa(a[k]) ==>
      a[k].plannedQuantity == b[k].plannedQuantity && a[k].actualQuantity == b[k].actualQuantity
    ensures PlanWhere(a, pa) == PlanWhere(b, pb) && FactWhere(a, pa) == FactWhere(b, pb)
    decreases |a|
  {
    if a != [] {
      WhereFollowsPicked(a[1..], pa, b[1..], pb);
    }
  }

  /** Completion over the picked rows, rounded to two places; 0.00 when they plan nothing. */
  function PickedCompletion(rows: seq<Row>, picked: Row -> bool): (p: real)
    ensures p >= 0.0
    ensures PlanWhere(rows, picked) == 0 ==> p == 0.0
  {
    var plan := PlanWhere(rows, picked);
    var fact := FactWhere(rows, picked);
    if plan == 0 then 0.0 else RoundedPercent(fact, plan)
  }

  /** In-progress completion as written: rows whose end time of day is at or before now. */
  function CompletionToDateAsWritten(rows: seq<Row>, now: MinuteOfDay): real {
    PickedCompletion(rows, r => ElapsedAsWritten(r, now))
  }

  /** The corrected selector: the rows that have ended since the shift started. */
  function ElapsedPick(shiftStart: MinuteOfDay, now: MinuteOfDay): Row -> bool {
    r => Elapsed(r, shiftStart, now)
  }

  /** In-progress completion, counting the rows that have ended since the shift started. */
  function CompletionToDate(rows: seq<Row>, shiftStart: MinuteOfDay, now: MinuteOfDay): real {
    PickedCompletion(rows, ElapsedPick(shiftStart, now))
  }

  /** Hours still running or to come cannot change the in-progress completion. */
  lemma CompletionToDateIgnoresPending(a: seq<Row>, b: seq<Row>, shiftStart: MinuteOfDay, now: MinuteOfDay)
    requires |a| == |b|
    requires forall k :: 0 <= k < |a| ==> Elapsed(a[k], shiftStart, now) == Elapsed(b[k], shiftStart, now)
    requires forall k :: 0 <= k < |a| && Elapsed(a[k], shiftStart, now) ==>
      a[k].plannedQuantity == b[k].plannedQuantity && a[k].actualQuantity == b[k].actualQuantity
    ensures CompletionToDate(a, shiftStart, now) == CompletionToDate(b, shiftStart, now)
  {
    var pick := ElapsedPick(shiftStart, now);
    WhereFollowsPicked(a, pick, b, pick);
  }

  /** A stored row for an hour interval, before anything is entered. */
  function PlannedRow(hour: nat, start: MinuteOfDay, end: MinuteOfDay, plan: nat, actual: nat): Row {
    Row(hour, start, end, plan, plan, actual, actual, actual - plan, 0, 0, actual > 0, None, None)
  }

  /**
   * As written, a shift starting at 23:00 counts its first two hours
   * (ending 00:00 and 01:00) as elapsed at 23:30 and reports 25.00 percent,
   * although neither hour has ended; counted from the shift start nothing has.
   */
  lemma AsWrittenCountsUnfinishedOvernightHours()
    ensures var rows := [PlannedRow(1, 23 * 60, 0, 10, 5), PlannedRow(2, 0, 60, 10, 0)];
      && CompletionToDateAsWritten(rows, 23 * 60 + 30) == 25.0
      && CompletionToDate(rows, 23 * 60, 23 * 60 + 30) == 0.0
  {
    var rows := [PlannedRow(1, 23 * 60, 0, 10, 5), PlannedRow(2, 0, 60, 10, 0)];
    var now := 23 * 60 + 30;
    var asWritten := r => ElapsedAsWritten(r, now);
    assert PlanWhere(rows, asWritten) == 20 by {
      assert rows[1..][1..] == [];
    }
    assert FactWhere(rows, asWritten) == 5 by {
      assert rows[1..][1..] == [];
    }
    assert RoundHalfEven(5 * 10000, 20) == 2500;
    var corrected := ElapsedPick(23 * 60, now);
    assert PlanWhere(rows, corrected) == 0 by {
      assert rows[1..][1..] == [];
    }
  }

  /** Position of the row with a given hour, if there is one. */
  function IndexOfHour(rows: seq<Row>, hour: nat): (r: Option<nat>)
    ensures r.Some? ==> r.value < |rows| && rows[r.value].hourNumber == hour
    ensures r.None? ==> forall k :: 0 <= k < |rows| ==> rows[k].hourNumber != hour
    decreases |rows|
  {
    if rows == [] then None
    else if rows[0].hourNumber == hour then Some(0)
    else match IndexOfHour(rows[1..], hour)
      case Some(i) => Some(i + 1)
      case None => None
  }

  /** A row with new cumulative figures, rewritten only when its plan or fact figure differs. */
  function Refreshed(r: Row, cumPlan: nat, cumFact: nat): Row {
    if r.cumulativePlan != cumPlan || r.cumulativeFact != cumFact then
      r.(cumulativePlan := cumPlan, cumulativeFact := cumFact, cumulativeDeviation := cumFact - cumPlan)
    else r
  }

  /**
   * The stored rows after refreshing up to hour n: every earlier hour gets
   * its running sums (if they differ), hour n itself and later hours are
   * left as they are.
   */
  function RefreshedPrefix(rows: seq<Row>, n: nat): (r: seq<Row>)
    ensures |r| == |rows|
  {
    seq(|rows|, k requires 0 <= k < |rows| =>
      if rows[k].hourNumber < n then Refreshed(rows[k], PlanSum(rows[..k + 1]), FactSum(rows[..k + 1]))
      else rows[k])
  }

  /** The edited instance after the refresh: the running sums at its hour's stored row, if any. */
  function WithCumulative(rows: seq<Row>, edited: Row): Row {
    match IndexOfHour(rows, edited.hourNumber)
    case Some(j) =>
      edited.(cumulativePlan := PlanSum(rows[..j + 1]), cumulativeFact := FactSum(rows[..j + 1]),
              cumulativeDeviation := FactSum(rows[..j + 1]) - PlanSum(rows[..j + 1]))
    case None => edited
  }

  /**
   * After the refresh, every hour before n carries the running plan and
   * fact up to it; hour n and later hours are untouched; the quantities
   * are unchanged everywhere.
   */
  lemma RefreshedPrefixSums(rows: seq<Row>, n: nat)
    ensures SameQuantities(RefreshedPrefix(rows, n), rows)
    ensures forall k :: 0 <= k < |rows| && rows[k].hourNumber < n ==>
      && RefreshedPrefix(rows, n)[k].cumulativePlan == PlanSum(RefreshedPrefix(rows, n)[..k + 1])
      && RefreshedPrefix(rows, n)[k].cumulativeFact == FactSum(RefreshedPrefix(rows, n)[..k + 1])
    ensures forall k :: 0 <= k < |rows| && rows[k].hourNumber >= n ==> RefreshedPrefix(rows, n)[k] == rows[k]
    ensures forall k :: 0 <= k < |rows| && rows[k].hourNumber < n ==>
      (RefreshedPrefix(rows, n)[k] == rows[k] <==>
         rows[k].cumulativePlan == PlanSum(rows[..k + 1]) && rows[k].cumulativeFact == FactSum(rows[..k + 1]))
    ensures forall k :: 0 <= k < |rows| && rows[k].hourNumber < n ==>
      (ConsistentDeviation(RefreshedPrefix(rows, n)[k]) <==>
         RefreshedPrefix(rows, n)[k] != rows[k] || ConsistentDeviation(rows[k]))
  {
    var r := RefreshedPrefix(rows, n);
    forall k | 0 <= k < |rows| && rows[k].hourNumber < n
      ensures r[k].cumulativePlan == PlanSum(r[..k + 1]) && r[k].cumulativeFact == FactSum(r[..k + 1])
    {
      SumsFollowQuantities(r[..k + 1], rows[..k + 1]);
    }
  }

  /** The cumulative deviation is the running fact minus the running plan. */
  predicate ConsistentDeviation(r: Row) {
    r.cumulativeDeviation == r.cumulativeFact - r.cumulativePlan
  }

  /** With hours strictly increasing, the row at position k is the one found for its hour. */
  lemma {:induction false} IndexOfHourAt(rows: seq<Row>, k: nat)
    requires HoursValid(rows) && k < |rows|
    ensures IndexOfHour(rows, rows[k].hourNumber) == Some(k)
    decreases k
  {
    if k > 0 {
      assert HoursValid(rows[1..]) by {
        forall a, b | 0 <= a < b < |rows[1..]| ensures rows[1..][a].hourNumber < rows[1..][b].hourNumber {
          assert rows[1..][a] == rows[a + 1] && rows[1..][b] == rows[b + 1];
        }
      }
      IndexOfHourAt(rows[1..], k - 1);
      assert rows[1..][k - 1] == rows[k];
    }
  }

  /** The refreshed row at one position. */
  lemma RefreshedPrefixAt(rows: seq<Row>, n: nat, i: nat, cumulativePlan: nat, cumulativeFact: nat)
    requires i < |rows|
    requires cumulativePlan == PlanSum(rows[..i]) + rows[i].plannedQuantity
    requires cumulativeFact == FactSum(rows[..i]) + rows[i].actualQuantity
    ensures RefreshedPrefix(rows, n)[i] ==
      if rows[i].hourNumber < n then Refreshed(rows[i], cumulativePlan, cumulativeFact) else rows[i]
  {
    PrefixSumStep(rows, i);
  }

  /** Whether the walk meets hour n at position i, and the running sums there when it does. */
  lemma FoundStep(rows: seq<Row>, n: nat, i: nat, cumulativePlan: nat, cumulativeFact: nat)
    requires HoursValid(rows) && i < |rows|
    requires cumulativePlan == PlanSum(rows[..i]) + rows[i].plannedQuantity
    requires cumulativeFact == FactSum(rows[..i]) + rows[i].actualQuantity
    ensures rows[i].hourNumber == n ==> IndexOfHour(rows, n) == Some(i)
    ensures rows[i].hourNumber != n ==> (IndexOfHour(rows, n).Some? && IndexOfHour(rows, n).value < i + 1
                                         <==> IndexOfHour(rows, n).Some? && IndexOfHour(rows, n).value < i)
    ensures PlanSum(rows[..i + 1]) == cumulativePlan && FactSum(rows[..i + 1]) == cumulativeFact
  {
    PrefixSumStep(rows, i);
    if rows[i].hourNumber == n {
      IndexOfHourAt(rows, i);
    }
  }

  /** One step of the walk: position i now holds its refreshed row, and nothing else moved. */
  lemma WalkStep(rows0: seq<Row>, before: seq<Row>, after: seq<Row>, n: nat, i: nat, cumulativePlan: nat, cumulativeFact: nat)
    requires i < |before| == |rows0| == |after|
    requires forall k :: 0 <= k < i ==> before[k] == RefreshedPrefix(rows0, n)[k]
    requires forall k :: i <= k < |before| ==> before[k] == rows0[k]
    requires cumulativePlan == PlanSum(rows0[..i]) + rows0[i].plannedQuantity
    requires cumulativeFact == FactSum(rows0[..i]) + rows0[i].actualQuantity
    requires after == before || after == before[i := after[i]]
    requires after[i] == if rows0[i].hourNumber < n then Refreshed(rows0[i], cumulativePlan, cumulativeFact) else rows0[i]
    ensures forall k :: 0 <= k < i + 1 ==> after[k] == RefreshedPrefix(rows0, n)[k]
    ensures forall k :: i + 1 <= k < |after| ==> after[k] == rows0[k]
  {
    RefreshedPrefixAt(rows0, n, i, cumulativePlan, cumulativeFact);
  }

  /** Where the walk stops, the rest of the rows have later hours and are left as they were. */
  lemma RefreshTail(rows0: seq<Row>, rows: seq<Row>, n: nat, i: nat)
    requires HoursValid(rows0) && i <= |rows| == |rows0|
    requires forall k :: 0 <= k < i ==> rows[k] == RefreshedPrefix(rows0, n)[k]
    requires forall k :: i <= k < |rows| ==> rows[k] == rows0[k]
    requires i < |rows| ==> rows[i].hourNumber > n
    ensures rows == RefreshedPrefix(rows0, n)
  {
    var r := RefreshedPrefix(rows0, n);
    forall k | i <= k < |rows| ensures rows[k] == r[k] {
      assert rows0[k].hourNumber >= rows0[i].hourNumber;
    }
  }

  /** A walk in hour order that stops at a later hour has passed the row for hour n, if there is one. */
  lemma FoundBeforeStop(rows: seq<Row>, n: nat, i: nat)
    requires HoursValid(rows) && i <= |rows|
    requires i < |rows| ==> rows[i].hourNumber > n
    ensures IndexOfHour(rows, n).Some? ==> IndexOfHour(rows, n).value < i
  {
  }

  /** The refresh keeps the hour numbers, hence the hour constraints. */
  lemma RefreshedKeepsHours(rows: seq<Row>, n: nat)
    requires HoursValid(rows)
    ensures HoursValid(RefreshedPrefix(rows, n))
  {
    var r := RefreshedPrefix(rows, n);
    assert forall k :: 0 <= k < |rows| ==> r[k].hourNumber == rows[k].hourNumber;
  }

  /**
   * A production-accounting blank for one workplace, date and shift. Its
   * hourly rows are the stored records, kept in hour order.
   */
  class PABlank {
    var workplace: Workplace
    var date: int
    var shift: Shift
    var product: nat
    var blankType: BlankType
    var status: BlankStatus
    var plannedQuantity: nat
    var taktTime: Option<real>
    var productionRate: Option<real>
    var hourlyPlan: Option<nat>
    var workplaceCapacity: Option<nat>
    var totalPlan: nat
    var totalFact: nat
    var totalDeviation: int
    var totalDowntime: nat
    var completionPercentage: real
    var createdBy: Option<nat>
    /** Whether the blank has been saved (has a primary key). */
    var persisted: bool
    var records: seq<Row>

    /** Hour constraints on the rows, and a stored rate is positive. */
    ghost predicate Valid()
      reads this
    {
      HoursValid(records) && (productionRate.None? || productionRate.value > 0.0)
    }

    function Params(): Parameters
      reads this
    {
      Parameters(taktTime, productionRate, hourlyPlan, workplaceCapacity)
    }

    function Key(): BlankKey
      reads this
    {
      BlankKey(workplace.id, date, shift.number)
    }

    /** A new, unsaved blank with the column defaults. */
    constructor (workplace: Workplace, date: int, shift: Shift, product: nat, blankType: BlankType,
                 status: BlankStatus, plannedQuantity: nat, createdBy: Option<nat>)
      ensures Valid() && !persisted && records == []
      ensures this.workplace == workplace && this.date == date && this.shift == shift
      ensures this.product == product && this.blankType == blankType && this.status == status
      ensures this.plannedQuantity == plannedQuantity && this.createdBy == createdBy
      ensures Params() == Unset
      ensures totalPlan == 0 && totalFact == 0 && totalDeviation == 0 && totalDowntime == 0
      ensures completionPercentage == 0.0
    {
      this.workplace, this.date, this.shift, this.product := workplace, date, shift, product;
      this.blankType, this.status, this.plannedQuantity := blankType, status, plannedQuantity;
      this.createdBy := createdBy;
      taktTime, productionRate, hourlyPlan, workplaceCapacity := None, None, None, None;
      totalPlan, totalFact, totalDeviation, totalDowntime := 0, 0, 0, 0;
      completionPercentage := 0.0;
      persisted := false;
      records := [];
    }

    /** `save()`: the parameters are computed only when the blank has no primary key yet. */
    method Save()
      requires Valid()
      modifies this`taktTime, this`productionRate, this`hourlyPlan, this`workplaceCapacity, this`persisted
      ensures Valid() && persisted
      ensures Params() == if old(persisted) then old(Params())
        else ComputedParameters(old(Params()), shift, plannedQuantity, blankType, workplace)
    {
      if !persisted {
        CalculateParameters();
      }
      persisted := true;
    }

    /** `_calculate_parameters()`. */
    method CalculateParameters()
      requires Valid()
      modifies this`taktTime, this`productionRate, this`hourlyPlan, this`workplaceCapacity
      ensures Valid()
      ensures Params() == ComputedParameters(old(Params()), shift, plannedQuantity, blankType, workplace)
    {
      if plannedQuantity == 0 {
        return;
      }
      var workingSeconds := WorkingTimeMinutes(shift) * 60;
      taktTime := Some(workingSeconds as real / plannedQuantity as real);
      if taktTime.value > 0.0 {
        var rate := 3600.0 / taktTime.value;
        productionRate := Some(rate);
        hourlyPlan := Some(CeilReal(rate));
      }
      if blankType == Type2 {
        workplaceCapacity := Or(workplace.passportCapacity, workplace.achievedCapacity);
      }
    }

    /** `recalculate_totals()`: sums over the rows, the deviation and the completion. */
    method RecalculateTotals()
      requires persisted
      modifies this`totalPlan, this`totalFact, this`totalDeviation, this`totalDowntime, this`completionPercentage
      ensures totalPlan == PlanSum(records) && totalFact == FactSum(records)
      ensures totalDeviation == totalFact - totalPlan
      ensures totalDowntime == DowntimeSum(records)
      ensures completionPercentage == Completion(totalFact, totalPlan)
    {
      totalPlan := PlanSum(records);
      totalFact := FactSum(records);
      totalDeviation := totalFact - totalPlan;
      totalDowntime := DowntimeSum(records);
      if totalPlan > 0 {
        completionPercentage := totalFact as real / totalPlan as real * 100.0;
      } else {
        completionPercentage := 0.0;
      }
    }

    /** Draft and active blanks may be edited. */
    predicate IsEditable()
      reads this
      ensures IsEditable() <==> status != Completed && status != Cancelled
    {
      status == Draft || status == Active
    }

    /**
     * Completion so far: the stored figure unless the blank is dated today;
     * otherwise only the hours that have ended count.
     */
    function CurrentCompletionPercentage(today: int, now: MinuteOfDay): (p: real)
      reads this
      ensures date != today ==> p == completionPercentage
      ensures date == today ==> p >= 0.0
      ensures date == today && PlanWhere(records, ElapsedPick(shift.startTime, now)) == 0 ==> p == 0.0
      ensures date == today && PlanWhere(records, ElapsedPick(shift.startTime, now)) > 0 ==>
        var plan := PlanWhere(records, ElapsedPick(shift.startTime, now));
        -0.005 <= p - Completion(FactWhere(records, ElapsedPick(shift.startTime, now)), plan) <= 0.005
    {
      if date != today then completionPercentage
      else
        var plan := PlanWhere(records, ElapsedPick(shift.startTime, now));
        var fact := FactWhere(records, ElapsedPick(shift.startTime, now));
        if plan > 0 then RoundedPercentIsClose(fact, plan); CompletionToDate(records, shift.startTime, now)
        else CompletionToDate(records, shift.startTime, now)
    }

    /** Traffic light of the blank, from the completion so far. */
    function StatusColor(today: int, now: MinuteOfDay): (c: Color)
      reads this
      ensures c != Secondary
    {
      ThresholdColor(CurrentCompletionPercentage(today, now))
    }

    /**
     * `record.save()` for an in-memory instance of one of the rows: the
     * deviation is recomputed and the instance replaces its hour's row.
     */
    method SaveRecord(instance: PARecord)
      requires Valid() && IndexOfHour(records, instance.hourNumber).Some?
      modifies this`records, instance`deviation
      ensures Valid()
      ensures instance.Snapshot() == Saved(old(instance.Snapshot()))
      ensures records == old(records)[IndexOfHour(old(records), instance.hourNumber).value := instance.Snapshot()]
    {
      instance.ComputeDeviation();
      var j := IndexOfHour(records, instance.hourNumber).value;
      records := records[j := instance.Snapshot()];
    }

    /**
     * `calculate_cumulative()` on an edited in-memory record of this blank:
     * walks the rows up to its hour in order with running plan and fact.
     * The edited instance gets the sums in memory only; every earlier row
     * whose stored plan or fact figure differs is rewritten; later rows are
     * not read.
     */
    method CalculateCumulative(instance: PARecord)
      requires Valid()
      modifies this`records, instance`cumulativePlan, instance`cumulativeFact, instance`cumulativeDeviation
      ensures Valid()
      ensures records == RefreshedPrefix(old(records), instance.hourNumber)
      ensures instance.Snapshot() == WithCumulative(old(records), old(instance.Snapshot()))
    {
      ghost var rows0 := records;
      var rows, found := RefreshWalk(records, instance.hourNumber);
      if found.Some? {
        instance.SetCumulative(found.value.0, found.value.1);
      }
      records := rows;
      RefreshedKeepsHours(rows0, instance.hourNumber);
    }
  }

  /**
   * The walk of `calculate_cumulative` over the blank's rows in hour order,
   * stopping after hour n: the refreshed rows, and the running sums at
   * hour n's row if there is one, which go to the edited instance.
   */
  method RefreshWalk(rows0: seq<Row>, n: nat) returns (rows: seq<Row>, found: Option<(nat, nat)>)
    requires HoursValid(rows0)
    ensures rows == RefreshedPrefix(rows0, n)
    ensures found.Some? <==> IndexOfHour(rows0, n).Some?
    ensures found.Some? ==> var j := IndexOfHour(rows0, n).value;
      found.value == (PlanSum(rows0[..j + 1]), FactSum(rows0[..j + 1]))
  {
    ghost var at := IndexOfHour(rows0, n);
    ghost var atSums := if at.Some? then (PlanSum(rows0[..at.value + 1]), FactSum(rows0[..at.value + 1])) else (0, 0);
    rows := rows0;
    found := None;
    var cumulativePlan, cumulativeFact := 0, 0;
    var i := 0;
    while i < |rows| && rows[i].hourNumber <= n
      invariant 0 <= i <= |rows| == |rows0|
      invariant cumulativePlan == PlanSum(rows0[..i]) && cumulativeFact == FactSum(rows0[..i])
      invariant forall k :: 0 <= k < i ==> rows[k] == RefreshedPrefix(rows0, n)[k]
      invariant forall k :: i <= k < |rows| ==> rows[k] == rows0[k]
      invariant found == if at.Some? && at.value < i then Some(atSums) else None
    {
      var r := rows[i];
      ghost var before := rows;
      cumulativePlan := cumulativePlan + r.plannedQuantity;
      cumulativeFact := cumulativeFact + r.actualQuantity;
      FoundStep(rows0, n, i, cumulativePlan, cumulativeFact);
      if r.hourNumber == n {
        found := Some((cumulativePlan, cumulativeFact));
      } else if r.cumulativePlan != cumulativePlan || r.cumulativeFact != cumulativeFact {
        rows := rows[i := r.(cumulativePlan := cumulativePlan, cumulativeFact := cumulativeFact,
                             cumulativeDeviation := cumulativeFact - cumulativePlan)];
      }
      WalkStep(rows0, before, rows, n, i, cumulativePlan, cumulativeFact);
      i := i + 1;
    }
    FoundBeforeStop(rows0, n, i);
    RefreshTail(rows0, rows, n, i);
  }
}
