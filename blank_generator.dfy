/**
 * The blank generator: the uniqueness guard, the type classifier, the
 * split of a shift's working time into hourly slots with their plans and
 * running plan, the full forward recalculation, and creation of a blank
 * directly or from a template.
 */
module Generator {
  import opened Common
  import opened Shifts
  import opened Records
  import opened Blanks
  import opened Templates

  /**
   * `_determine_blank_type`: type 2 when the workplace has a truthy passport
   * or achieved capacity, otherwise type 1. The classifier first divides by
   * the planned quantity, which fails for zero.
   */
  function DetermineBlankType(workplace: Workplace, plannedQuantity: nat): (r: Result<BlankType, CreateError>)
    ensures r.Err? <==> plannedQuantity == 0
    ensures r.Err? ==> r.error == ZeroPlannedQuantity
    ensures r.Ok? ==> (r.value == Type2 <==> Truthy(CapacityFor(workplace)))
    ensures r.Ok? ==> r.value == Type1 || r.value == Type2
  {
    if plannedQuantity == 0 then Err(ZeroPlannedQuantity)
    else if Truthy(workplace.passportCapacity) || Truthy(workplace.achievedCapacity) then Ok(Type2)
    else Ok(Type1)
  }

  /** The plan of a full hour: the stored hourly plan if truthy, else the ceiling of the rate (0 if unset). */
  function EffectiveHourlyPlan(hourlyPlan: Option<nat>, productionRate: Option<real>): (h: nat)
    requires productionRate.None? || productionRate.value > 0.0
    ensures Truthy(hourlyPlan) ==> h == hourlyPlan.value
    ensures !Truthy(hourlyPlan) && productionRate.Some? ==>
      productionRate.value <= h as real < productionRate.value + 1.0
    ensures !Truthy(hourlyPlan) && productionRate.None? ==> h == 0
  {
    if Truthy(hourlyPlan) then hourlyPlan.value else CeilReal(productionRate.GetOr(0.0))
  }

  /** How many hourly slots a working time yields: full hours plus one partial hour. */
  function SlotCount(w: int): (n: nat)
    ensures w <= 0 ==> n == 0
    ensures w > 0 ==> n == CeilDiv(w, 60)
  {
    if w <= 0 then 0 else w / 60 + (if w % 60 > 0 then 1 else 0)
  }

  /** Length in minutes of slot k (from 0): 60 for a full hour, the remainder for the last. */
  function SlotLength(w: nat, k: nat): nat {
    if k < w / 60 then 60 else w % 60
  }

  /** Plan of slot k: the hourly plan, or the hourly plan prorated upwards for the partial hour. */
  function SlotPlan(h: nat, w: nat, k: nat): nat {
    if k < w / 60 then h else CeilDiv(h * (w % 60), 60)
  }

  /** The running plan after slot k. */
  function PlanThrough(h: nat, w: nat, k: nat): nat {
    if k < w / 60 then h * (k + 1) else h * (w / 60) + CeilDiv(h * (w % 60), 60)
  }

  /** Start of slot k: k full hours after the shift start, on the 24-hour clock. */
  function SlotStart(start: MinuteOfDay, k: nat): MinuteOfDay {
    (start + 60 * k) % MinutesPerDay
  }

  /** End of slot k: its start plus its length, on the 24-hour clock. */
  function SlotEnd(start: MinuteOfDay, w: nat, k: nat): MinuteOfDay {
    (start + 60 * k + SlotLength(w, k)) % MinutesPerDay
  }

  /** The row created for slot k: nothing entered yet, deviation minus the plan. */
  function GeneratedRow(shift: Shift, h: nat, k: nat): Row
    requires k < SlotCount(WorkingTimeMinutes(shift))
  {
    var w := WorkingTimeMinutes(shift);
    var plan := SlotPlan(h, w, k);
    Row(k + 1, SlotStart(shift.startTime, k), SlotEnd(shift.startTime, w, k),
        plan, PlanThrough(h, w, k), 0, 0, 0 - plan, 0, 0, false, None, None)
  }

  /** The rows `_generate_records` creates for a shift and an hourly plan. */
  function GeneratedRows(shift: Shift, h: nat): (rows: seq<Row>)
    ensures |rows| == SlotCount(WorkingTimeMinutes(shift))
  {
    seq(SlotCount(WorkingTimeMinutes(shift)), k requires 0 <= k < SlotCount(WorkingTimeMinutes(shift)) =>
      GeneratedRow(shift, h, k))
  }

  /**
   * The row of slot k, given the clock and running plan the walk has
   * reached and the slot's length and plan; and, after a full hour, where
   * the walk is next.
   */
  lemma NextRow(shift: Shift, h: nat, k: nat, current: MinuteOfDay, cumulativePlan: nat, interval: nat, plan: nat)
    requires k < SlotCount(WorkingTimeMinutes(shift))
    requires current == SlotStart(shift.startTime, k) && cumulativePlan == h * k
    requires interval == SlotLength(WorkingTimeMinutes(shift), k) && plan == SlotPlan(h, WorkingTimeMinutes(shift), k)
    ensures GeneratedRow(shift, h, k) == Row(k + 1, current, (current + interval) % MinutesPerDay,
      plan, cumulativePlan + plan, 0, 0, 0 - plan, 0, 0, false, None, None)
    ensures k < WorkingTimeMinutes(shift) / 60 ==>
      (current + interval) % MinutesPerDay == SlotStart(shift.startTime, k + 1) && cumulativePlan + plan == h * (k + 1)
  {
    var w := WorkingTimeMinutes(shift);
    ModSum(shift.startTime + 60 * k, SlotLength(w, k));
    if k < w / 60 {
      assert shift.startTime + 60 * k + 60 == shift.startTime + 60 * (k + 1);
      assert h * (k + 1) == h * k + h;
    }
  }

  /** The walk's hour number that gets past the break test names a slot, with that slot's length and plan. */
  lemma WalkSlot(w: int, h: nat, hourNumber: nat)
    requires 1 <= hourNumber < w / 60 + 2 && (hourNumber <= w / 60 || w % 60 > 0)
    ensures w > 0 && hourNumber - 1 < SlotCount(w)
    ensures SlotLength(w, hourNumber - 1) == if hourNumber <= w / 60 then 60 else w % 60
    ensures SlotPlan(h, w, hourNumber - 1) == if hourNumber <= w / 60 then h else CeilDiv(h * (w % 60), 60)
  {
  }

  /** Reducing the left operand first does not change the remainder of a sum. */
  lemma ModSum(a: int, d: int)
    ensures (a % MinutesPerDay + d) % MinutesPerDay == (a + d) % MinutesPerDay
  {
    ModMultiple(a % MinutesPerDay + d, a / MinutesPerDay);
  }

  /**
   * `_generate_records`: walks hour numbers 1, 2, ... advancing the clock by
   * 60 minutes per full hour, adds one partial slot for the remainder, and
   * stops; each slot becomes a row carrying its plan and the running plan.
   */
  method GenerateRecords(blank: PABlank)
    requires blank.Valid() && blank.records == []
    modifies blank`records
    ensures blank.Valid()
    ensures blank.records == GeneratedRows(blank.shift, EffectiveHourlyPlan(blank.hourlyPlan, blank.productionRate))
  {
    var hourlyPlan := EffectiveHourlyPlan(blank.hourlyPlan, blank.productionRate);
    var rows := WalkSlots(blank.shift, hourlyPlan);
    blank.records := rows;
    GeneratedHoursValid(blank.shift, hourlyPlan);
  }

  /** The walk itself: the rows it builds for a shift and an hourly plan. */
  method WalkSlots(shift: Shift, hourlyPlan: nat) returns (rows: seq<Row>)
    ensures rows == GeneratedRows(shift, hourlyPlan)
  {
    var w := WorkingTimeMinutes(shift);
    var workingHours := w / 60;
    var remainingMinutes := w % 60;
    var current: MinuteOfDay := shift.startTime;
    var cumulativePlan: nat := 0;
    rows := [];
    var hourNumber: nat := 1;
    while hourNumber < workingHours + 2
      invariant 1 <= hourNumber <= SlotCount(w) + 1
      invariant |rows| == hourNumber - 1
      invariant forall k :: 0 <= k < |rows| ==> rows[k] == GeneratedRow(shift, hourlyPlan, k)
      invariant hourNumber <= workingHours + 1 ==>
        current == SlotStart(shift.startTime, hourNumber - 1) && cumulativePlan == hourlyPlan * (hourNumber - 1)
    {
      var startTime := current;
      var intervalMinutes;
      if hourNumber <= workingHours {
        intervalMinutes := 60;
      } else if remainingMinutes > 0 {
        intervalMinutes := remainingMinutes;
      } else {
        break;
      }
      ghost var planBefore := cumulativePlan;
      current := (current + intervalMinutes) % MinutesPerDay;
      var planForHour := if hourNumber <= workingHours then hourlyPlan else CeilDiv(hourlyPlan * remainingMinutes, 60);
      cumulativePlan := cumulativePlan + planForHour;
      WalkSlot(w, hourlyPlan, hourNumber);
      NextRow(shift, hourlyPlan, hourNumber - 1, startTime, planBefore, intervalMinutes, planForHour);
      rows := rows + [Row(hourNumber, startTime, current, planForHour, cumulativePlan,
                          0, 0, 0 - planForHour, 0, 0, false, None, None)];
      hourNumber := hourNumber + 1;
    }
    WalkEnd(w, hourNumber);
  }

  /** Where the walk stops, it has made one row per slot. */
  lemma WalkEnd(w: int, hourNumber: nat)
    requires 1 <= hourNumber <= SlotCount(w) + 1
    requires hourNumber >= w / 60 + 2 || (hourNumber > w / 60 && w % 60 == 0)
    ensures hourNumber - 1 == SlotCount(w)
  {
  }

  /** There are at most 24 generated rows, numbered 1, 2, ... in order. */
  lemma GeneratedHoursValid(shift: Shift, h: nat)
    ensures |GeneratedRows(shift, h)| <= MaxHour
    ensures forall k :: 0 <= k < |GeneratedRows(shift, h)| ==> GeneratedRows(shift, h)[k].hourNumber == k + 1
    ensures HoursValid(GeneratedRows(shift, h))
  {
  }

  /**
   * The number of rows is the working time in hours rounded up: none for a
   * working time of zero or less, otherwise the smallest n with 60n >= w.
   */
  lemma GeneratedCount(shift: Shift, h: nat)
    ensures var n := |GeneratedRows(shift, h)|; var w := WorkingTimeMinutes(shift);
      && (w <= 0 ==> n == 0)
      && (w > 0 ==> (n - 1) * 60 < w <= n * 60)
  {
  }

  /** The first slot starts at the shift start and each later slot starts where the previous one ended. */
  lemma GeneratedSlotsChain(shift: Shift, h: nat)
    ensures var rows := GeneratedRows(shift, h);
      && (|rows| > 0 ==> rows[0].startTime == shift.startTime)
      && (forall k :: 0 < k < |rows| ==> rows[k].startTime == rows[k - 1].endTime)
  {
    var rows := GeneratedRows(shift, h);
    var w := WorkingTimeMinutes(shift);
    forall k | 0 < k < |rows| ensures rows[k].startTime == rows[k - 1].endTime {
      assert SlotLength(w, k - 1) == 60;
      assert rows[k].startTime == SlotStart(shift.startTime, k);
      assert rows[k - 1].endTime == SlotEnd(shift.startTime, w, k - 1);
      FullSlotMeetsNext(shift.startTime, w, k);
    }
  }

  /** A full-hour slot ends where the next one starts. */
  lemma FullSlotMeetsNext(start: MinuteOfDay, w: nat, k: nat)
    requires k > 0 && SlotLength(w, k - 1) == 60
    ensures SlotEnd(start, w, k - 1) == SlotStart(start, k)
  {
    assert start + 60 * (k - 1) + 60 == start + 60 * k;
  }

  /**
   * Every slot but the last lasts an hour on the clock; the last lasts
   * the remainder of the working time, or an hour when there is none.
   */
  lemma GeneratedSlotLengths(shift: Shift, h: nat)
    ensures var rows := GeneratedRows(shift, h); var w := WorkingTimeMinutes(shift);
      && (forall k :: 0 <= k < |rows| - 1 ==> (rows[k].endTime - rows[k].startTime) % MinutesPerDay == 60)
      && (|rows| > 0 ==> (rows[|rows| - 1].endTime - rows[|rows| - 1].startTime) % MinutesPerDay
                          == if w % 60 > 0 then w % 60 else 60)
  {
    var rows := GeneratedRows(shift, h);
    var w := WorkingTimeMinutes(shift);
    forall k | 0 <= k < |rows| ensures (rows[k].endTime - rows[k].startTime) % MinutesPerDay == SlotLength(w, k) {
      assert rows[k].startTime == SlotStart(shift.startTime, k) && rows[k].endTime == SlotEnd(shift.startTime, w, k);
      SlotOnClock(shift.startTime, w, k);
    }
  }

  /** One slot's length on the clock. */
  lemma SlotOnClock(start: MinuteOfDay, w: nat, k: nat)
    ensures (SlotEnd(start, w, k) - SlotStart(start, k)) % MinutesPerDay == SlotLength(w, k)
  {
    ModDifference(start + 60 * k, SlotLength(w, k));
  }

  /** The last slot ends the working time after the shift start, on the clock. */
  lemma GeneratedLastEnd(shift: Shift, h: nat)
    ensures var rows := GeneratedRows(shift, h);
      |rows| > 0 ==> rows[|rows| - 1].endTime == (shift.startTime + WorkingTimeMinutes(shift)) % MinutesPerDay
  {
    var rows := GeneratedRows(shift, h);
    var w := WorkingTimeMinutes(shift);
    if |rows| > 0 {
      var k := |rows| - 1;
      assert 60 * k + SlotLength(w, k) == w;
    }
  }

  /** Reducing both ends of an interval on the clock keeps its length modulo a day. */
  lemma ModDifference(a: int, d: int)
    ensures ((a + d) % MinutesPerDay - a % MinutesPerDay) % MinutesPerDay == d % MinutesPerDay
  {
    var q1 := (a + d) / MinutesPerDay;
    var q2 := a / MinutesPerDay;
    assert (a + d) % MinutesPerDay - a % MinutesPerDay == d - (q1 - q2) * MinutesPerDay;
    ModMultiple(d, q2 - q1);
  }

  /** Adding a multiple of a day does not change a remainder. */
  lemma {:induction false} ModMultiple(d: int, q: int)
    ensures (d + q * MinutesPerDay) % MinutesPerDay == d % MinutesPerDay
    decreases if q < 0 then -q else q
  {
    if q > 0 {
      ModMultiple(d, q - 1);
      assert d + q * MinutesPerDay == (d + (q - 1) * MinutesPerDay) + MinutesPerDay;
    } else if q < 0 {
      ModMultiple(d, q + 1);
      assert d + q * MinutesPerDay == (d + (q + 1) * MinutesPerDay) - MinutesPerDay;
    }
  }

  /** Without breaks, the last slot ends exactly at the shift's end time. */
  lemma GeneratedEndsAtShiftEnd(shift: Shift, h: nat)
    requires TotalBreaks(shift) == 0 && |GeneratedRows(shift, h)| > 0
    ensures GeneratedRows(shift, h)[|GeneratedRows(shift, h)| - 1].endTime == shift.endTime
  {
    GeneratedLastEnd(shift, h);
  }

  /** Every slot plans at most the hourly plan; the full hours plan exactly it. */
  lemma GeneratedPlansBounded(shift: Shift, h: nat)
    ensures forall k :: 0 <= k < |GeneratedRows(shift, h)| ==> GeneratedRows(shift, h)[k].plannedQuantity <= h
    ensures forall k :: 0 <= k < |GeneratedRows(shift, h)| && k < WorkingTimeMinutes(shift) / 60 ==>
      GeneratedRows(shift, h)[k].plannedQuantity == h
  {
    var w := WorkingTimeMinutes(shift);
    forall k | 0 <= k < |GeneratedRows(shift, h)| && k >= w / 60
      ensures GeneratedRows(shift, h)[k].plannedQuantity <= h
    {
      PartialPlanBounded(h, w % 60);
    }
  }

  /** Prorating an hourly plan to fewer than 60 minutes, rounded up, does not exceed it. */
  lemma PartialPlanBounded(h: nat, m: nat)
    requires m < 60
    ensures CeilDiv(h * m, 60) <= h
  {
    assert h * m <= h * 60;
  }

  /** Each generated row carries the running plan up to and including it. */
  lemma GeneratedCumulativePlan(shift: Shift, h: nat)
    ensures forall k :: 0 <= k < |GeneratedRows(shift, h)| ==>
      GeneratedRows(shift, h)[k].cumulativePlan == PlanSum(GeneratedRows(shift, h)[..k + 1])
  {
    var rows := GeneratedRows(shift, h);
    forall k | 0 <= k < |rows| ensures rows[k].cumulativePlan == PlanSum(rows[..k + 1]) {
      PlanThroughIsPrefixSum(shift, h, k);
    }
  }

  lemma {:induction false} PlanThroughIsPrefixSum(shift: Shift, h: nat, k: nat)
    requires k < |GeneratedRows(shift, h)|
    ensures PlanThrough(h, WorkingTimeMinutes(shift), k) == PlanSum(GeneratedRows(shift, h)[..k + 1])
  {
    var rows := GeneratedRows(shift, h);
    var w := WorkingTimeMinutes(shift);
    PrefixSumStep(rows, k);
    assert rows[k].plannedQuantity == SlotPlan(h, w, k);
    if k == 0 {
      assert rows[..0] == [];
      PlanThroughFirst(h, w);
    } else {
      PlanThroughIsPrefixSum(shift, h, k - 1);
      PlanThroughStep(h, w, k);
    }
  }

  /** The running plan through the first slot is that slot's plan. */
  lemma PlanThroughFirst(h: nat, w: nat)
    ensures PlanThrough(h, w, 0) == SlotPlan(h, w, 0)
  {
  }

  /** The running plan grows by each slot's plan. */
  lemma PlanThroughStep(h: nat, w: nat, k: nat)
    requires 0 < k < SlotCount(w)
    ensures PlanThrough(h, w, k) == PlanThrough(h, w, k - 1) + SlotPlan(h, w, k)
  {
    assert k - 1 < w / 60;
    if k < w / 60 {
      assert h * (k + 1) == h * k + h;
    }
  }

  /** Every row a generated blank starts with is a freshly saved, unfilled row. */
  lemma GeneratedRowsUnfilled(shift: Shift, h: nat)
    ensures forall k :: 0 <= k < |GeneratedRows(shift, h)| ==>
      && !GeneratedRows(shift, h)[k].isFilled && GeneratedRows(shift, h)[k].actualQuantity == 0
      && GeneratedRows(shift, h)[k] == Saved(GeneratedRows(shift, h)[k])
      && GeneratedRows(shift, h)[k].cumulativeDeviation == 0
  {
  }

  /**
   * The rounding-up pays off: when the hourly plan covers the planned
   * quantity over the working time (h * w >= 60 * q), the generated rows
   * plan at least q in total.
   */
  lemma GeneratedPlanCovers(shift: Shift, h: nat, q: nat)
    requires WorkingTimeMinutes(shift) > 0 && h * WorkingTimeMinutes(shift) >= 60 * q
    ensures PlanSum(GeneratedRows(shift, h)) >= q
  {
    var rows := GeneratedRows(shift, h);
    var w: nat := WorkingTimeMinutes(shift);
    var n := |rows|;
    PlanThroughIsPrefixSum(shift, h, n - 1);
    assert rows[..n] == rows;
    PlanThroughCovers(h, w, n - 1);
  }

  /** The running plan after the last slot, times 60, is at least h times the working time. */
  lemma PlanThroughCovers(h: nat, w: nat, k: nat)
    requires w > 0 && k == SlotCount(w) - 1
    ensures 60 * PlanThrough(h, w, k) >= h * w
  {
    var full := w / 60;
    var rem := w % 60;
    Distribute(h, full, rem);
    if rem > 0 {
      assert k == full;
      assert 60 * CeilDiv(h * rem, 60) >= h * rem;
    } else {
      assert k == full - 1;
    }
  }

  lemma Distribute(h: nat, full: nat, rem: nat)
    ensures h * (60 * full + rem) == 60 * (h * full) + h * rem
  {
  }

  /** Every row after a full forward pass: running sums and deviation recomputed, nothing else touched. */
  function Recalculated(rows: seq<Row>): (r: seq<Row>)
    ensures |r| == |rows|
    ensures forall k :: 0 <= k < |rows| ==>
      r[k].(cumulativePlan := rows[k].cumulativePlan, cumulativeFact := rows[k].cumulativeFact,
            cumulativeDeviation := rows[k].cumulativeDeviation, deviation := rows[k].deviation) == rows[k]
  {
    seq(|rows|, k requires 0 <= k < |rows| =>
      rows[k].(cumulativePlan := PlanSum(rows[..k + 1]), cumulativeFact := FactSum(rows[..k + 1]),
               cumulativeDeviation := FactSum(rows[..k + 1]) - PlanSum(rows[..k + 1]),
               deviation := rows[k].actualQuantity - rows[k].plannedQuantity))
  }

  /**
   * After the forward pass every row's cumulative fields are the running
   * sums and every deviation is actual minus planned.
   */
  lemma RecalculatedIsConsistent(rows: seq<Row>)
    ensures SameQuantities(Recalculated(rows), rows)
    ensures CumulativeConsistent(Recalculated(rows))
    ensures forall k :: 0 <= k < |rows| ==> Recalculated(rows)[k] == Saved(Recalculated(rows)[k])
  {
    var r := Recalculated(rows);
    forall k | 0 <= k < |rows|
      ensures r[k].cumulativePlan == PlanSum(r[..k + 1]) && r[k].cumulativeFact == FactSum(r[..k + 1])
    {
      SumsFollowQuantities(r[..k + 1], rows[..k + 1]);
    }
  }

  /** A second forward pass changes nothing. */
  lemma RecalculatedIdempotent(rows: seq<Row>)
    ensures Recalculated(Recalculated(rows)) == Recalculated(rows)
  {
    var r := Recalculated(rows);
    RecalculatedIsConsistent(rows);
    forall k | 0 <= k < |rows| ensures Recalculated(r)[k] == r[k] {
      SumsFollowQuantities(r[..k + 1], rows[..k + 1]);
    }
  }

  /**
   * `recalculate_blank`: rewrites every row's running sums, cumulative
   * deviation and deviation in hour order, then refreshes the totals.
   */
  method RecalculateBlank(blank: PABlank)
    requires blank.Valid() && blank.persisted
    modifies blank`records, blank`totalPlan, blank`totalFact, blank`totalDeviation, blank`totalDowntime,
      blank`completionPercentage
    ensures blank.Valid()
    ensures blank.records == Recalculated(old(blank.records))
    ensures blank.totalPlan == PlanSum(blank.records) && blank.totalFact == FactSum(blank.records)
    ensures blank.totalDeviation == blank.totalFact - blank.totalPlan
    ensures blank.totalDowntime == DowntimeSum(blank.records)
    ensures blank.completionPercentage == Completion(blank.totalFact, blank.totalPlan)
  {
    ghost var rows0 := blank.records;
    var rows := RunningSums(blank.records);
    RecalculatedKeepsHours(rows0);
    blank.records := rows;
    blank.RecalculateTotals();
  }

  /** The forward pass of `recalculate_blank` over the rows in hour order. */
  method RunningSums(rows0: seq<Row>) returns (rows: seq<Row>)
    ensures rows == Recalculated(rows0)
  {
    rows := rows0;
    ghost var target := Recalculated(rows0);
    var cumulativePlan, cumulativeFact := 0, 0;
    var i := 0;
    while i < |rows|
      invariant 0 <= i <= |rows| == |rows0| == |target|
      invariant cumulativePlan == PlanSum(rows0[..i]) && cumulativeFact == FactSum(rows0[..i])
      invariant forall k :: 0 <= k < i ==> rows[k] == target[k]
      invariant forall k :: i <= k < |rows| ==> rows[k] == rows0[k]
    {
      var r := rows[i];
      cumulativePlan := cumulativePlan + r.plannedQuantity;
      cumulativeFact := cumulativeFact + r.actualQuantity;
      RecalculatedAt(rows0, i, cumulativePlan, cumulativeFact);
      rows := rows[i := r.(cumulativePlan := cumulativePlan, cumulativeFact := cumulativeFact,
                           cumulativeDeviation := cumulativeFact - cumulativePlan,
                           deviation := r.actualQuantity - r.plannedQuantity)];
      i := i + 1;
    }
  }

  /** The recalculated row at one position, from the running sums through it. */
  lemma RecalculatedAt(rows: seq<Row>, i: nat, cumulativePlan: nat, cumulativeFact: nat)
    requires i < |rows|
    requires cumulativePlan == PlanSum(rows[..i]) + rows[i].plannedQuantity
    requires cumulativeFact == FactSum(rows[..i]) + rows[i].actualQuantity
    ensures Recalculated(rows)[i] == rows[i].(cumulativePlan := cumulativePlan, cumulativeFact := cumulativeFact,
      cumulativeDeviation := cumulativeFact - cumulativePlan, deviation := rows[i].actualQuantity - rows[i].plannedQuantity)
  {
    PrefixSumStep(rows, i);
  }

  /** The forward pass keeps the hour numbers, hence the hour constraints. */
  lemma RecalculatedKeepsHours(rows: seq<Row>)
    requires HoursValid(rows)
    ensures HoursValid(Recalculated(rows))
  {
    var r := Recalculated(rows);
    assert forall k :: 0 <= k < |rows| ==> r[k].hourNumber == rows[k].hourNumber;
  }

  /** The type a new blank gets: the one given, or the classifier's. */
  function ChosenType(workplace: Workplace, plannedQuantity: nat, blankType: Option<BlankType>): (r: Result<BlankType, CreateError>)
    ensures r.Err? <==> blankType.None? && plannedQuantity == 0
    ensures r.Ok? && blankType.Some? ==> r.value == blankType.value
    ensures r.Ok? && blankType.None? ==> (r.value == Type2 <==> Truthy(CapacityFor(workplace)))
  {
    if blankType.Some? then Ok(blankType.value) else DetermineBlankType(workplace, plannedQuantity)
  }

  /**
   * `create_blank`: refuses a taken (workplace, date, shift) before creating
   * anything, picks the type, saves an active blank (computing its
   * parameters), generates its rows and refreshes its totals.
   */
  method CreateBlank(existing: set<BlankKey>, workplace: Workplace, date: int, shift: Shift, product: nat,
                     plannedQuantity: nat, blankType: Option<BlankType>, createdBy: Option<nat>)
    returns (r: Result<PABlank, CreateError>)
    ensures BlankKey(workplace.id, date, shift.number) in existing ==> r == Err(AlreadyExists)
    ensures BlankKey(workplace.id, date, shift.number) !in existing ==>
      match ChosenType(workplace, plannedQuantity, blankType)
      case Err(e) => r == Err(e)
      case Ok(t) =>
        && r.Ok? && fresh(r.value) && r.value.Valid() && r.value.persisted
        && r.value.Key() == BlankKey(workplace.id, date, shift.number)
        && r.value.workplace == workplace && r.value.shift == shift && r.value.product == product
        && r.value.plannedQuantity == plannedQuantity && r.value.createdBy == createdBy
        && r.value.blankType == t && r.value.status == Active
        && r.value.Params() == ComputedParameters(Unset, shift, plannedQuantity, t, workplace)
        && r.value.records == GeneratedRows(shift, EffectiveHourlyPlan(r.value.hourlyPlan, r.value.productionRate))
        && r.value.totalPlan == PlanSum(r.value.records) && r.value.totalFact == 0
        && r.value.totalDeviation + r.value.totalPlan == 0 && r.value.totalDowntime == 0
        && r.value.completionPercentage == 0.0
    ensures r.Ok? && WorkingTimeMinutes(shift) > 0 ==> r.value.totalPlan >= plannedQuantity
  {
    if BlankKey(workplace.id, date, shift.number) in existing {
      return Err(AlreadyExists);
    }
    var chosen := ChosenType(workplace, plannedQuantity, blankType);
    if chosen.Err? {
      return Err(chosen.error);
    }
    var blank := NewActiveBlank(workplace, date, shift, product, chosen.value, plannedQuantity, createdBy);
    CreatedPlanCovers(shift, plannedQuantity, chosen.value, workplace);
    return Ok(blank);
  }

  /** Saves a new active blank, generates its rows and refreshes its totals. */
  method NewActiveBlank(workplace: Workplace, date: int, shift: Shift, product: nat, blankType: BlankType,
                        plannedQuantity: nat, createdBy: Option<nat>)
    returns (blank: PABlank)
    ensures fresh(blank) && blank.Valid() && blank.persisted
    ensures blank.Key() == BlankKey(workplace.id, date, shift.number)
    ensures blank.workplace == workplace && blank.shift == shift && blank.product == product
    ensures blank.plannedQuantity == plannedQuantity && blank.createdBy == createdBy
    ensures blank.blankType == blankType && blank.status == Active
    ensures blank.Params() == ComputedParameters(Unset, shift, plannedQuantity, blankType, workplace)
    ensures blank.records == GeneratedRows(shift, EffectiveHourlyPlan(blank.hourlyPlan, blank.productionRate))
    ensures blank.totalPlan == PlanSum(blank.records) && blank.totalFact == 0
    ensures blank.totalDeviation + blank.totalPlan == 0 && blank.totalDowntime == 0
    ensures blank.completionPercentage == 0.0
  {
    blank := new PABlank(workplace, date, shift, product, blankType, Active, plannedQuantity, createdBy);
    SaveAndFill(blank);
  }

  /** Saves a new blank with no rows, generates its rows, then refreshes its totals. */
  method SaveAndFill(blank: PABlank)
    requires blank.Valid() && !blank.persisted && blank.records == [] && blank.Params() == Unset
    modifies blank`taktTime, blank`productionRate, blank`hourlyPlan, blank`workplaceCapacity, blank`persisted,
      blank`records, blank`totalPlan, blank`totalFact, blank`totalDeviation, blank`totalDowntime,
      blank`completionPercentage
    ensures blank.Valid() && blank.persisted
    ensures blank.Params() == ComputedParameters(Unset, blank.shift, blank.plannedQuantity, blank.blankType, blank.workplace)
    ensures blank.records == GeneratedRows(blank.shift, EffectiveHourlyPlan(blank.hourlyPlan, blank.productionRate))
    ensures blank.totalPlan == PlanSum(blank.records) && blank.totalFact == 0
    ensures blank.totalDeviation + blank.totalPlan == 0 && blank.totalDowntime == 0
    ensures blank.completionPercentage == 0.0
  {
    blank.Save();
    FillAndTotal(blank);
  }

  /** Generates the rows of a saved blank that has none, then refreshes its totals. */
  method FillAndTotal(blank: PABlank)
    requires blank.Valid() && blank.persisted && blank.records == []
    modifies blank`records, blank`totalPlan, blank`totalFact, blank`totalDeviation, blank`totalDowntime,
      blank`completionPercentage
    ensures blank.Valid()
    ensures blank.records == GeneratedRows(blank.shift, EffectiveHourlyPlan(blank.hourlyPlan, blank.productionRate))
    ensures blank.totalPlan == PlanSum(blank.records) && blank.totalFact == 0
    ensures blank.totalDeviation + blank.totalPlan == 0 && blank.totalDowntime == 0
    ensures blank.completionPercentage == 0.0
  {
    ghost var h := EffectiveHourlyPlan(blank.hourlyPlan, blank.productionRate);
    GenerateRecords(blank);
    GeneratedFactsZero(blank.shift, h);
    blank.RecalculateTotals();
  }

  /**
   * With a positive working time and plan, the rows generated from the
   * computed parameters plan at least the planned quantity.
   */
  lemma CreatedPlanCovers(shift: Shift, plannedQuantity: nat, blankType: BlankType, workplace: Workplace)
    ensures var p := ComputedParameters(Unset, shift, plannedQuantity, blankType, workplace);
      WorkingTimeMinutes(shift) > 0 ==>
        PlanSum(GeneratedRows(shift, EffectiveHourlyPlan(p.hourlyPlan, p.productionRate))) >= plannedQuantity
  {
    var p := ComputedParameters(Unset, shift, plannedQuantity, blankType, workplace);
    if WorkingTimeMinutes(shift) > 0 && plannedQuantity > 0 {
      RateFormulas(Unset, shift, plannedQuantity, blankType, workplace);
      GeneratedPlanCovers(shift, p.hourlyPlan.value, plannedQuantity);
    }
  }

  /** Generated rows have no fact and no downtime. */
  lemma GeneratedFactsZero(shift: Shift, h: nat)
    ensures FactSum(GeneratedRows(shift, h)) == 0 && DowntimeSum(GeneratedRows(shift, h)) == 0
  {
    NothingEntered(GeneratedRows(shift, h));
  }

  lemma {:induction false} NothingEntered(rows: seq<Row>)
    requires forall k :: 0 <= k < |rows| ==> rows[k].actualQuantity == 0 && rows[k].downtimeMinutes == 0
    ensures FactSum(rows) == 0 && DowntimeSum(rows) == 0
    decreases |rows|
  {
    if rows != [] {
      NothingEntered(rows[..|rows| - 1]);
    }
  }

  /**
   * `create_from_template`: the template's workplace, product, plan and
   * type, for the given shift or else the template's. The template's type
   * is always given, so the classifier never runs; without a shift the
   * insert fails.
   */
  method CreateFromTemplate(existing: set<BlankKey>, template: Template, date: int, shift: Option<Shift>,
                            createdBy: Option<nat>)
    returns (r: Result<PABlank, CreateError>)
    ensures var s := if shift.Some? then shift else template.shift;
      && (s.None? ==> r == Err(MissingShift))
      && (s.Some? && BlankKey(template.workplace.id, date, s.value.number) in existing ==> r == Err(AlreadyExists))
      && (s.Some? && BlankKey(template.workplace.id, date, s.value.number) !in existing ==>
            && r.Ok? && fresh(r.value) && r.value.Valid()
            && r.value.workplace == template.workplace && r.value.date == date && r.value.shift == s.value
            && r.value.product == template.product && r.value.plannedQuantity == template.plannedQuantity
            && r.value.blankType == template.blankType && r.value.status == Active
            && r.value.persisted && r.value.createdBy == createdBy
            && r.value.Params() == ComputedParameters(Unset, s.value, template.plannedQuantity, template.blankType,
                                                      template.workplace)
            && r.value.records == GeneratedRows(s.value, EffectiveHourlyPlan(r.value.hourlyPlan, r.value.productionRate))
            && r.value.totalPlan == PlanSum(r.value.records) && r.value.totalFact == 0
            && r.value.totalDeviation + r.value.totalPlan == 0 && r.value.totalDowntime == 0
            && r.value.completionPercentage == 0.0
            && (WorkingTimeMinutes(s.value) > 0 ==> r.value.totalPlan >= template.plannedQuantity))
  {
    var s := if shift.Some? then shift else template.shift;
    if s.None? {
      return Err(MissingShift);
    }
    r := CreateBlank(existing, template.workplace, date, s.value, template.product, template.plannedQuantity,
                     Some(template.blankType), createdBy);
  }
}
