/**
 * Shift timing: the four break fields, the start-to-end duration with its
 * midnight wrap, and the working-time fund that every blank is planned from.
 */
module Shifts {

  const MinutesPerDay: int := 1440

  /** A time of day, as minutes after midnight. */
  type MinuteOfDay = m: int | 0 <= m < 1440

  datatype Shift = Shift(
    number: nat,
    startTime: MinuteOfDay,
    endTime: MinuteOfDay,
    lunchBreak: nat,
    personalBreak: nat,
    handoverBreak: nat,
    otherBreak: nat,
    isActive: bool)

  /** The shift with the column defaults for its breaks (30, 10, 10 and 0 minutes). */
  function WithDefaultBreaks(number: nat, startTime: MinuteOfDay, endTime: MinuteOfDay): (s: Shift)
    ensures TotalBreaks(s) == 50 && s.isActive
  {
    Shift(number, startTime, endTime, 30, 10, 10, 0, true)
  }

  /** Sum of the four break fields, in minutes. */
  function TotalBreaks(s: Shift): (r: nat)
    ensures r >= s.lunchBreak && r >= s.personalBreak && r >= s.handoverBreak && r >= s.otherBreak
  {
    s.lunchBreak + s.personalBreak + s.handoverBreak + s.otherBreak
  }

  /**
   * Minutes from start to end. A day is added only when the end is strictly
   * before the start, so equal times give a zero-length shift.
   */
  function DurationMinutes(s: Shift): (r: int)
    ensures 0 <= r < MinutesPerDay
    ensures (s.startTime + r) % MinutesPerDay == s.endTime
    ensures s.startTime <= s.endTime ==> r == s.endTime - s.startTime
  {
    var end := if s.endTime < s.startTime then s.endTime + MinutesPerDay else s.endTime;
    end - s.startTime
  }

  /** Working-time fund: duration less all breaks, with no lower bound. */
  function WorkingTimeMinutes(s: Shift): (r: int)
    ensures r <= DurationMinutes(s) < MinutesPerDay
    ensures r + TotalBreaks(s) == DurationMinutes(s)
  {
    DurationMinutes(s) - TotalBreaks(s)
  }

  /** The duration is the only forward distance in one day that leads from start to end. */
  lemma DurationIsForwardDistance(s: Shift, d: int)
    requires 0 <= d < MinutesPerDay
    requires (s.startTime + d) % MinutesPerDay == s.endTime
    ensures d == DurationMinutes(s)
  {
    var r := DurationMinutes(s);
    if s.startTime + d < MinutesPerDay {
      assert s.startTime + d == s.endTime;
    } else {
      assert s.startTime + d - MinutesPerDay == s.endTime;
    }
  }

  /** Working time is zero or negative exactly when the breaks use up the whole duration. */
  lemma WorkingTimeNonPositive(s: Shift)
    ensures WorkingTimeMinutes(s) <= 0 <==> TotalBreaks(s) >= DurationMinutes(s)
  {
  }

  /** A night shift 20:00 to 08:00 and a day shift 08:00 to 20:00 both last 720 minutes. */
  lemma DayAndNightDurations()
    ensures DurationMinutes(Shift(1, 20 * 60, 8 * 60, 60, 0, 0, 0, true)) == 720
    ensures WorkingTimeMinutes(Shift(1, 20 * 60, 8 * 60, 60, 0, 0, 0, true)) == 660
    ensures DurationMinutes(Shift(2, 8 * 60, 20 * 60, 60, 0, 0, 0, true)) == 720
    ensures DurationMinutes(Shift(3, 8 * 60, 8 * 60, 0, 0, 0, 0, true)) == 0
  {
  }
}
