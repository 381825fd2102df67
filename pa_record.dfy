/**
 * Hourly records of a blank: the stored row, the in-memory instance an
 * operator edits, the deviation rule applied on every save, the traffic
 * light and per-hour completion, and the sums the cumulative fields track.
 */
module Records {
  import opened Common
  import opened Shifts

  /** Lowest and highest hour number a record may carry. */
  const MinHour: int := 1
  const MaxHour: int := 24

  /** One stored hourly record of a blank. */
  datatype Row = Row(
    hourNumber: nat,
    startTime: MinuteOfDay,
    endTime: MinuteOfDay,
    plannedQuantity: nat,
    cumulativePlan: nat,
    actualQuantity: nat,
    cumulativeFact: nat,
    deviation: int,
    cumulativeDeviation: int,
    downtimeMinutes: nat,
    isFilled: bool,
    filledAt: Option<int>,
    filledBy: Option<nat>)

  /** The colours the interface shows for a record or a blank. */
  datatype Color = Secondary | Success | Warning | Danger

  /** What `save()` writes: the row with its deviation recomputed as actual minus planned. */
  function Saved(r: Row): (s: Row)
    ensures s.deviation + s.plannedQuantity == s.actualQuantity
    ensures s.(deviation := r.deviation) == r
  {
    r.(deviation := r.actualQuantity - r.plannedQuantity)
  }

  /** Whatever deviation the caller assigned beforehand, saving overrides it. */
  lemma SaveOverridesDeviation(r: Row, d: int)
    ensures Saved(r.(deviation := d)) == Saved(r)
    ensures Saved(Saved(r)) == Saved(r)
  {
  }

  /** Traffic light of one hour: grey until filled, then by actual against planned. */
  function StatusColor(r: Row): (c: Color)
    ensures c == Secondary <==> !r.isFilled
    ensures c == Success <==> r.isFilled && r.actualQuantity >= r.plannedQuantity
  {
    if !r.isFilled then Secondary
    else if r.actualQuantity >= r.plannedQuantity then Success
    else if r.actualQuantity as real >= r.plannedQuantity as real * 0.9 then Warning
    else Danger
  }

  /** Per-hour completion, in percent; 0 when nothing is planned for the hour. */
  function CompletionPercentage(r: Row): (p: real)
    ensures p >= 0.0
    ensures r.plannedQuantity == 0 ==> p == 0.0
    ensures r.plannedQuantity > 0 ==> p * r.plannedQuantity as real == r.actualQuantity as real * 100.0
  {
    if r.plannedQuantity > 0 then r.actualQuantity as real / r.plannedQuantity as real * 100.0 else 0.0
  }

  /**
   * For a filled hour with a plan, the colour is the completion percentage
   * read against the thresholds 100 and 90.
   */
  lemma StatusColorByCompletion(r: Row)
    requires r.isFilled && r.plannedQuantity > 0
    ensures StatusColor(r) == Success <==> CompletionPercentage(r) >= 100.0
    ensures StatusColor(r) == Warning <==> 90.0 <= CompletionPercentage(r) < 100.0
    ensures StatusColor(r) == Danger <==> CompletionPercentage(r) < 90.0
  {
    var p := CompletionPercentage(r);
    var q := r.plannedQuantity as real;
    var a := r.actualQuantity as real;
    PercentAgainstThreshold(p, q, a, 100.0);
    PercentAgainstThreshold(p, q, a, 90.0);
  }

  /** With p * q == a * 100 and q positive, p reaches a threshold t exactly when a * 100 reaches t * q. */
  lemma PercentAgainstThreshold(p: real, q: real, a: real, t: real)
    requires q > 0.0 && p * q == a * 100.0
    ensures p >= t <==> a * 100.0 >= t * q
  {
    if p >= t {
      assert p * q >= t * q;
    } else {
      assert p * q < t * q;
    }
  }

  /** Sum of planned quantities. */
  function PlanSum(rows: seq<Row>): nat {
    if rows == [] then 0 else PlanSum(rows[..|rows| - 1]) + rows[|rows| - 1].plannedQuantity
  }

  /** Sum of actual quantities. */
  function FactSum(rows: seq<Row>): nat {
    if rows == [] then 0 else FactSum(rows[..|rows| - 1]) + rows[|rows| - 1].actualQuantity
  }

  /** Sum of downtime minutes. */
  function DowntimeSum(rows: seq<Row>): nat {
    if rows == [] then 0 else DowntimeSum(rows[..|rows| - 1]) + rows[|rows| - 1].downtimeMinutes
  }

  /** Rows with the same planned and actual quantities, position by position. */
  predicate SameQuantities(a: seq<Row>, b: seq<Row>) {
    |a| == |b| && forall k :: 0 <= k < |a| ==>
      a[k].plannedQuantity == b[k].plannedQuantity && a[k].actualQuantity == b[k].actualQuantity
  }

  /** The plan and fact sums depend on nothing but the quantities. */
  lemma {:induction false} SumsFollowQuantities(a: seq<Row>, b: seq<Row>)
    requires SameQuantities(a, b)
    ensures PlanSum(a) == PlanSum(b) && FactSum(a) == FactSum(b)
    decreases |a|
  {
    if a != [] {
      SumsFollowQuantities(a[..|a| - 1], b[..|b| - 1]);
    }
  }

  /** Sums over a longer prefix add the next row. */
  lemma PrefixSumStep(rows: seq<Row>, k: nat)
    requires k < |rows|
    ensures PlanSum(rows[..k + 1]) == PlanSum(rows[..k]) + rows[k].plannedQuantity
    ensures FactSum(rows[..k + 1]) == FactSum(rows[..k]) + rows[k].actualQuantity
  {
    assert rows[..k + 1][..k] == rows[..k];
  }

  /**
   * The table constraints: hour numbers lie in [1, 24] and, listed in
   * hour order, strictly increase, so each hour occurs once per blank.
   */
  predicate HoursValid(rows: seq<Row>) {
    (forall k :: 0 <= k < |rows| ==> MinHour <= rows[k].hourNumber <= MaxHour)
    && (forall i, j :: 0 <= i < j < |rows| ==> rows[i].hourNumber < rows[j].hourNumber)
  }

  /** Every row's cumulative fields are the running sums up to and including it. */
  predicate CumulativeConsistent(rows: seq<Row>) {
    forall k :: 0 <= k < |rows| ==>
      && rows[k].cumulativePlan == PlanSum(rows[..k + 1])
      && rows[k].cumulativeFact == FactSum(rows[..k + 1])
      && rows[k].cumulativeDeviation == rows[k].cumulativeFact - rows[k].cumulativePlan
  }

  /** In consistent rows the last cumulative figures are the totals. */
  lemma LastCumulativeIsTotal(rows: seq<Row>)
    requires CumulativeConsistent(rows) && rows != []
    ensures rows[|rows| - 1].cumulativePlan == PlanSum(rows)
    ensures rows[|rows| - 1].cumulativeFact == FactSum(rows)
  {
    assert rows[..|rows|] == rows;
  }

  /**
   * An in-memory model instance of an hourly record, as loaded from its row.
   * Changing it changes nothing stored until its blank writes it back.
   */
  class PARecord {
    var hourNumber: nat
    var startTime: MinuteOfDay
    var endTime: MinuteOfDay
    var plannedQuantity: nat
    var cumulativePlan: nat
    var actualQuantity: nat
    var cumulativeFact: nat
    var deviation: int
    var cumulativeDeviation: int
    var downtimeMinutes: nat
    var isFilled: bool
    var filledAt: Option<int>
    var filledBy: Option<nat>

    /** The field values as a row. */
    function Snapshot(): Row
      reads this
    {
      Row(hourNumber, startTime, endTime, plannedQuantity, cumulativePlan, actualQuantity,
          cumulativeFact, deviation, cumulativeDeviation, downtimeMinutes, isFilled, filledAt, filledBy)
    }

    /** Loads an instance from a stored row. */
    constructor Load(r: Row)
      ensures Snapshot() == r
    {
      hourNumber, startTime, endTime := r.hourNumber, r.startTime, r.endTime;
      plannedQuantity, cumulativePlan := r.plannedQuantity, r.cumulativePlan;
      actualQuantity, cumulativeFact := r.actualQuantity, r.cumulativeFact;
      deviation, cumulativeDeviation := r.deviation, r.cumulativeDeviation;
      downtimeMinutes, isFilled, filledAt, filledBy := r.downtimeMinutes, r.isFilled, r.filledAt, r.filledBy;
    }

    /** The in-memory half of `save()`: the deviation is recomputed, nothing else changes. */
    method ComputeDeviation()
      modifies this`deviation
      ensures Snapshot() == Saved(old(Snapshot()))
    {
      deviation := actualQuantity - plannedQuantity;
    }

    /** The operator's figure entered in memory: filled, stamped, and the deviation set as actual minus planned. */
    method FillActual(actual: nat, now: int, user: nat)
      modifies this`actualQuantity, this`isFilled, this`filledAt, this`filledBy, this`deviation
      ensures Snapshot() == old(Snapshot()).(actualQuantity := actual, isFilled := true, filledAt := Some(now),
                                             filledBy := Some(user), deviation := actual - plannedQuantity)
    {
      actualQuantity, isFilled, filledAt, filledBy := actual, true, Some(now), Some(user);
      deviation := actualQuantity - plannedQuantity;
    }

    /** Sets the running figures in memory; the cumulative deviation follows them. */
    method SetCumulative(plan: nat, fact: nat)
      modifies this`cumulativePlan, this`cumulativeFact, this`cumulativeDeviation
      ensures Snapshot() == old(Snapshot()).(cumulativePlan := plan, cumulativeFact := fact,
                                             cumulativeDeviation := fact - plan)
    {
      cumulativePlan, cumulativeFact, cumulativeDeviation := plan, fact, fact - plan;
    }
  }
}
