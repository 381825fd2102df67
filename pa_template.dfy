/**
 * Blank templates: the standard plan of a workplace, the weekdays it
 * applies to, and the blank it creates.
 */
module Templates {
  import opened Common
  import opened Shifts
  import opened Blanks

  /** A blank template; weekday flags run Monday to Sunday. */
  datatype Template = Template(
    workplace: Workplace,
    product: nat,
    shift: Option<Shift>,
    blankType: BlankType,
    plannedQuantity: nat,
    monday: bool,
    tuesday: bool,
    wednesday: bool,
    thursday: bool,
    friday: bool,
    saturday: bool,
    sunday: bool,
    isActive: bool)

  /** The weekday flags, indexed 0 (Monday) to 6 (Sunday). */
  function WeekdayFlags(t: Template): (flags: seq<bool>)
    ensures |flags| == 7
  {
    [t.monday, t.tuesday, t.wednesday, t.thursday, t.friday, t.saturday, t.sunday]
  }

  /** A template with the column defaults: type 1, any shift, active, Monday to Friday. */
  function NewTemplate(workplace: Workplace, product: nat, plannedQuantity: nat): (t: Template)
    ensures t.workplace == workplace && t.product == product && t.plannedQuantity == plannedQuantity
    ensures t.shift.None? && t.blankType == Type1 && t.isActive
    ensures WeekdayFlags(t) == [true, true, true, true, true, false, false]
  {
    Template(workplace, product, None, Type1, plannedQuantity, true, true, true, true, true, false, false, true)
  }

  /** `is_applicable_for_weekday`: a lookup in the weekday table, False for any other key. */
  function IsApplicableForWeekday(t: Template, weekday: int): (r: bool)
    ensures r <==> 0 <= weekday < 7 && WeekdayFlags(t)[weekday]
  {
    var table := map[0 := t.monday, 1 := t.tuesday, 2 := t.wednesday, 3 := t.thursday,
                     4 := t.friday, 5 := t.saturday, 6 := t.sunday];
    if weekday in table then table[weekday] else false
  }

  /** With the default flags a template applies on weekdays and not at the weekend. */
  lemma DefaultTemplateWorkdays(workplace: Workplace, product: nat, plannedQuantity: nat, weekday: int)
    ensures IsApplicableForWeekday(NewTemplate(workplace, product, plannedQuantity), weekday)
      <==> 0 <= weekday <= 4
  {
    var flags := WeekdayFlags(NewTemplate(workplace, product, plannedQuantity));
    if 0 <= weekday < 7 {
      assert flags[weekday] <==> weekday <= 4;
    }
  }

  /**
   * The template's `create_blank`: a saved draft blank with the template's
   * workplace, product, type and plan, for the given shift or else the
   * template's, and no hourly records. Without a shift, or for a key that
   * is taken, the insert fails.
   */
  method CreateBlank(t: Template, existing: set<BlankKey>, date: int, shift: Option<Shift>, createdBy: Option<nat>)
    returns (r: Result<PABlank, CreateError>)
    ensures var s := if shift.Some? then shift else t.shift;
      && (s.None? ==> r == Err(MissingShift))
      && (s.Some? && BlankKey(t.workplace.id, date, s.value.number) in existing ==> r == Err(AlreadyExists))
      && (s.Some? && BlankKey(t.workplace.id, date, s.value.number) !in existing ==>
            && r.Ok? && fresh(r.value) && r.value.Valid() && r.value.persisted
            && r.value.workplace == t.workplace && r.value.date == date && r.value.shift == s.value
            && r.value.product == t.product && r.value.blankType == t.blankType
            && r.value.plannedQuantity == t.plannedQuantity && r.value.createdBy == createdBy
            && r.value.status == Draft && r.value.records == []
            && r.value.Params() == ComputedParameters(Unset, s.value, t.plannedQuantity, t.blankType, t.workplace))
  {
    var s := if shift.Some? then shift else t.shift;
    if s.None? {
      return Err(MissingShift);
    }
    if BlankKey(t.workplace.id, date, s.value.number) in existing {
      return Err(AlreadyExists);
    }
    var blank := new PABlank(t.workplace, date, s.value, t.product, t.blankType, Draft, t.plannedQuantity, createdBy);
    blank.Save();
    return Ok(blank);
  }
}
