# shift_report core, modelled in Dafny

`shift_report` is a Django application for hourly production accounting
on a shop floor. For each workplace, date and shift there is one
production-accounting *blank*. A blank carries a planned quantity for
the shift, and the shift's working time is split into hourly *records*.
Operators enter the actual quantity made in each hour. The blank keeps
running (cumulative) plan and fact figures per hour, totals, a completion
percentage and a traffic-light colour. Around this sit the creation forms,
the login and PIN forms, the role guards (decorators, a view mixin, a
request middleware) and the template helpers that show or hide parts of a
page by role.

This project models that core and proves properties of it:

- `shift.dfy` (`Shifts`): the break fields, the shift duration with its
  midnight wrap, and the working-time fund.
- `pa_record.dfy` (`Records`): the hourly row, the deviation rule of every
  save, the record's colour and completion, the plan, fact and downtime
  sums, the hour constraints, and the in-memory record instance as a class.
- `pa_blank.dfy` (`Blanks`): the parameters computed on a blank's first
  save (takt time, production rate, hourly plan, capacity), totals,
  completion so far, the blank's colour, and `calculate_cumulative`.
  The blank is a class whose methods update its fields.
- `blank_generator.dfy` (`Generator`): the uniqueness guard, the type
  classifier, the split of the working time into hourly slots, the full
  forward recalculation, and creation of a blank directly or from a template.
- `pa_template.dfy` (`Templates`): templates, their weekday table and
  the draft blank a template creates.
- `forms_blanks.dfy`, `forms_auth.dfy`: the validation rules of the
  blank-creation forms and of the login and PIN-change forms.
- `decorators.dfy`, `middleware.dfy`, `role_tags.dfy`: the role-based access
  rules, which are proved to agree with each other where they should.
- `record_entry.dfy` (`RecordEntry`): an operator's entry of one hour's
  figure, composed from the core operations in the order the operator view
  runs them.
- `common.dfy`, `pystr.dfy`: option and result types, Python truthiness,
  ceilings, and the string operations the forms and tags use (`strip`,
  `isdigit`, `startswith`, `split`).

The walks over rows that the source writes as loops
(`_generate_records`, `recalculate_blank`, `calculate_cumulative`) are
methods with loop invariants. Each is proved against a function over
sequences (`GeneratedRows`, `Recalculated`, `RefreshedPrefix`), and the
properties of the walk are proved as lemmas about that function.

Times of day are minutes after midnight; dates are day numbers. The
current time, the current date and the acting user are parameters.
Database queries become the blank's row sequence, and the set of keys
already taken becomes a parameter.

## Model

| member | source | states |
|---|---|---|
| Shifts.WithDefaultBreaks | shift_report/models/shift.py:38-61 | a shift created with the column defaults has 50 minutes of breaks (30, 10, 10, 0) and is active |
| Shifts.TotalBreaks | shift_report/models/shift.py:66-74 | the total of the four breaks, which is no smaller than any one of them |
| Shifts.DurationMinutes | shift_report/models/shift.py:76-88 | the duration lies in [0, 1440); start plus duration is the end time modulo one day; it is end minus start when the shift does not cross midnight, so equal times give 0 |
| Shifts.DurationIsForwardDistance | shift_report/models/shift.py:76-88 | any forward distance under one day that leads from start to end is the duration, so the duration is unique |
| Shifts.WorkingTimeMinutes | shift_report/models/shift.py:90-93 | working time plus breaks is the duration; it never exceeds the duration and has no lower bound |
| Shifts.WorkingTimeNonPositive | shift_report/models/shift.py:90-93 | the working time is zero or negative exactly when the breaks use up the whole duration |
| Shifts.DayAndNightDurations | shift_report/models/shift.py:76-93 | 20:00-08:00 lasts 720 minutes (660 with a 60-minute break), 08:00-20:00 lasts 720, and 08:00-08:00 lasts 0 |
| Records.Saved | shift_report/models/pa_record.py:133-136 | a saved row has deviation equal to actual minus planned, and no other field differs from the unsaved row |
| Records.SaveOverridesDeviation | shift_report/models/pa_record.py:133-136 | whatever deviation was assigned before saving is overwritten, and saving twice is the same as saving once |
| Records.StatusColor | shift_report/models/pa_record.py:171-181 | a record is grey exactly when it is not filled, and green exactly when it is filled and actual reaches planned |
| Records.CompletionPercentage | shift_report/models/pa_record.py:183-188 | completion is non-negative; it is 0 when nothing is planned, and otherwise completion times planned equals actual times 100 |
| Records.StatusColorByCompletion | shift_report/models/pa_record.py:171-188 | for a filled hour with a plan: green exactly when completion is at least 100, yellow when it is in [90, 100), red below 90 |
| Records.SumsFollowQuantities | shift_report/models/pa_record.py:151-153 | the plan and fact sums of rows depend only on their planned and actual quantities |
| Records.LastCumulativeIsTotal | shift_report/services/blank_generator.py:278-284 | when every row carries its running sums, the last row's cumulative plan and fact are the totals |
| Records.PARecord.Load | shift_report/models/pa_record.py:40-117 | a record instance loaded from a stored row holds exactly that row's fields |
| Records.PARecord.ComputeDeviation | shift_report/models/pa_record.py:133-136 | the instance becomes its saved form: the deviation is recomputed and nothing else changes |
| Records.PARecord.FillActual | shift_report/views/operator.py:197-203 | the instance gets the actual quantity, the filled flag, the time, the user, and deviation actual minus planned; nothing else changes |
| Records.PARecord.SetCumulative | shift_report/models/pa_record.py:155-158 | the instance gets the running plan and fact and their difference; nothing else changes |
| Blanks.CapacityFor | shift_report/models/pa_blank.py:225-229 | the passport capacity when it is truthy, otherwise the achieved one; the result is truthy exactly when either is |
| Blanks.ComputedParameters | shift_report/models/pa_blank.py:206-229 | with no planned quantity nothing changes; otherwise a takt time is set; the capacity is taken only for type 2; a positive stored rate stays positive |
| Blanks.TaktFormula | shift_report/models/pa_blank.py:211-215 | takt time times the planned quantity is the working time in seconds |
| Blanks.RateFormulas | shift_report/models/pa_blank.py:217-222 | with working time W > 0: rate times W is 60 times the plan; rate <= hourly plan < rate + 1; hourly plan times W covers 60 times the plan |
| Blanks.NoRateWithoutWorkingTime | shift_report/models/pa_blank.py:218-222 | with no positive working time the takt time is not positive, so the rate and hourly plan keep their values |
| Blanks.Completion | shift_report/models/pa_blank.py:244-249 | the blank's completion is non-negative, 0 without plan or fact, and otherwise completion times plan equals fact times 100 |
| Blanks.RoundHalfEven | shift_report/models/pa_blank.py:296 | the integer nearest n / d, within half a unit, with ties going to the even neighbour |
| Blanks.RoundedPercentIsClose | shift_report/models/pa_blank.py:294-296 | the percentage rounded to two places is within 0.005 of the exact one |
| Blanks.ThresholdColor | shift_report/models/pa_blank.py:298-307 | a blank's colour is green, yellow or red, never grey |
| Blanks.ThresholdsMatchRecordColor | shift_report/models/pa_blank.py:298-307 | for a filled hour with a plan, the blank's thresholds applied to the hour's completion give the hour's own colour |
| Blanks.WhereFollowsPicked | shift_report/models/pa_blank.py:279-287 | selections that pick the same positions, with the same quantities where they pick, give the same plan and fact sums |
| Blanks.PickedCompletion | shift_report/models/pa_blank.py:286-296 | completion over the selected hours is non-negative, and it is 0.00 when they plan nothing |
| Blanks.CompletionToDateIgnoresPending | shift_report/models/pa_blank.py:278-296 | hours that have not ended cannot change the completion so far (corrected version) |
| Blanks.AsWrittenCountsUnfinishedOvernightHours | shift_report/models/pa_blank.py:279-281 | a shift from 23:00, at 23:30: as written, 25.00 percent from two unfinished hours; corrected, 0 |
| Blanks.IndexOfHour | shift_report/models/pa_record.py:155 | a position found holds the hour; no position is found exactly when no row has the hour |
| Blanks.IndexOfHourAt | shift_report/models/pa_record.py:22-27 | with unique, increasing hours, each row is the one found for its own hour |
| Blanks.RefreshedPrefixSums | shift_report/models/pa_record.py:160-169 | the refresh changes no quantity; every row before the edited hour carries the running sums; that hour and later ones are untouched; an earlier row is left as it was exactly when its stored running plan and fact already match, so its cumulative deviation is fact minus plan exactly when the row was rewritten or already had it so |
| Blanks.RefreshedKeepsHours | shift_report/models/pa_record.py:160-169 | the refresh keeps the hour constraints |
| Blanks.RefreshWalk | shift_report/models/pa_record.py:144-169 | the loop leaves the refreshed rows; it finds sums exactly when the edited hour has a row, and then they are the running plan and fact through that row |
| Blanks.PABlank.constructor | shift_report/models/pa_blank.py:84-167 | a new unsaved blank has no rows, unset parameters and zero totals |
| Blanks.PABlank.Save | shift_report/models/pa_blank.py:200-204 | the parameters are computed on the first save only; later saves keep them |
| Blanks.PABlank.CalculateParameters | shift_report/models/pa_blank.py:206-229 | the new parameters are the computed parameters of the old ones, and the rows keep their constraints |
| Blanks.PABlank.RecalculateTotals | shift_report/models/pa_blank.py:231-254 | the totals are the plan, fact and downtime sums of the rows; deviation is fact minus plan; completion is computed from the totals |
| Blanks.PABlank.CurrentCompletionPercentage | shift_report/models/pa_blank.py:261-296 | for a blank not dated today, the stored completion; otherwise 0.00 when the hours that have ended plan nothing, and else within 0.005 of their fact over their plan times 100 |
| Blanks.PABlank.StatusColor | shift_report/models/pa_blank.py:298-307 | a blank's colour is never grey |
| Blanks.PABlank.IsEditable | shift_report/models/pa_blank.py:256-259 | a blank may be edited exactly when it is neither completed nor cancelled |
| Blanks.PABlank.SaveRecord | shift_report/models/pa_record.py:133-136 | the instance is saved (deviation recomputed) and replaces the stored row of its hour; no other row changes |
| Blanks.PABlank.CalculateCumulative | shift_report/models/pa_record.py:138-169 | the stored rows become the refreshed rows up to the instance's hour; the instance alone gets its own running sums |
| Generator.DetermineBlankType | shift_report/services/blank_generator.py:169-200 | fails exactly for a zero planned quantity (the division); otherwise type 2 exactly when a capacity is truthy, else type 1 |
| Generator.EffectiveHourlyPlan | shift_report/services/blank_generator.py:222-224 | the stored hourly plan when truthy; otherwise the ceiling of the rate, or 0 when no rate is set |
| Generator.SlotCount | shift_report/services/blank_generator.py:218-240 | no slots for a working time of zero or less; otherwise the working time in hours, rounded up |
| Generator.GeneratedRows | shift_report/services/blank_generator.py:202-265 | one row per slot |
| Generator.WalkSlots | shift_report/services/blank_generator.py:226-263 | the loop builds exactly the generated rows |
| Generator.GenerateRecords | shift_report/services/blank_generator.py:202-265 | the blank's rows become the generated rows for its shift and effective hourly plan |
| Generator.GeneratedHoursValid | shift_report/services/blank_generator.py:230-262 | the generated hours are numbered 1, 2, ... without gaps, at most 24 of them, and meet the table constraints |
| Generator.GeneratedCount | shift_report/services/blank_generator.py:218-240 | n rows for working time W > 0 with (n - 1) * 60 < W <= n * 60; none otherwise |
| Generator.GeneratedSlotsChain | shift_report/services/blank_generator.py:227-243 | the first slot starts at the shift start, and each later slot starts where the previous one ended |
| Generator.GeneratedSlotLengths | shift_report/services/blank_generator.py:234-243 | every slot but the last lasts 60 minutes on the clock; the last lasts the remainder, or 60 when there is none |
| Generator.GeneratedLastEnd | shift_report/services/blank_generator.py:227-243 | the last slot ends the working time after the shift start, on the 24-hour clock |
| Generator.GeneratedEndsAtShiftEnd | shift_report/services/blank_generator.py:227-243 | without breaks, the last slot ends at the shift's end time |
| Generator.GeneratedPlansBounded | shift_report/services/blank_generator.py:245-250 | full hours plan exactly the hourly plan, and no slot plans more |
| Generator.PartialPlanBounded | shift_report/services/blank_generator.py:249-250 | the prorated, rounded-up plan of a partial hour does not exceed the hourly plan |
| Generator.GeneratedCumulativePlan | shift_report/services/blank_generator.py:252-261 | each generated row's cumulative plan is the plan sum through it |
| Generator.PlanThroughIsPrefixSum | shift_report/services/blank_generator.py:252 | the closed form of the running plan equals the prefix sum of the slot plans |
| Generator.GeneratedRowsUnfilled | shift_report/services/blank_generator.py:255-262 | generated rows are unfilled, with zero actual, deviation minus the plan, and zero cumulative deviation |
| Generator.GeneratedPlanCovers | shift_report/services/blank_generator.py:222-250 | when the hourly plan times the working time covers 60 times the plan, the generated rows plan at least the plan |
| Generator.PlanThroughCovers | shift_report/services/blank_generator.py:245-252 | 60 times the running plan after the last slot is at least the hourly plan times the working time |
| Generator.Recalculated | shift_report/services/blank_generator.py:278-289 | a forward pass changes only the two running sums, the cumulative deviation and the deviation of each row |
| Generator.RecalculatedIsConsistent | shift_report/services/blank_generator.py:278-289 | after the pass every row carries its running sums and its saved deviation; the quantities are unchanged |
| Generator.RecalculatedIdempotent | shift_report/services/blank_generator.py:267-289 | a second pass changes nothing |
| Generator.RecalculatedKeepsHours | shift_report/services/blank_generator.py:278-289 | the pass keeps the hour constraints |
| Generator.RunningSums | shift_report/services/blank_generator.py:273-289 | the loop builds exactly the recalculated rows |
| Generator.RecalculateBlank | shift_report/services/blank_generator.py:267-292 | the blank's rows become the recalculated rows, and its totals are those of the new rows |
| Generator.ChosenType | shift_report/services/blank_generator.py:66-70 | fails exactly when no type is given and the plan is zero; a given type is kept even for a zero plan; otherwise type 2 exactly when a capacity is truthy |
| Generator.CreateBlank | shift_report/services/blank_generator.py:28-91 | a taken key fails first; then a classifier error fails; otherwise a saved, active blank with computed parameters, generated rows and totals; with positive working time it plans at least the planned quantity |
| Generator.NewActiveBlank | shift_report/services/blank_generator.py:72-89 | a fresh active blank, saved, with generated rows and their totals, and nothing entered |
| Generator.SaveAndFill | shift_report/services/blank_generator.py:74-89 | saving computes the parameters; the rows are generated from them; the totals show the plan and nothing made |
| Generator.FillAndTotal | shift_report/services/blank_generator.py:85-89 | the saved blank gets its generated rows; the totals have zero fact, downtime and completion |
| Generator.CreatedPlanCovers | shift_report/services/blank_generator.py:86-89 | with positive working time, the rows generated from the computed parameters plan at least the planned quantity |
| Generator.GeneratedFactsZero | shift_report/services/blank_generator.py:255-262 | generated rows sum to zero fact and zero downtime |
| Generator.NothingEntered | shift_report/services/blank_generator.py:255-262 | rows with no actual quantity and no downtime sum to zero fact and zero downtime |
| Generator.CreateFromTemplate | shift_report/services/blank_generator.py:93-120 | the given shift or else the template's; no shift fails; a taken key fails; otherwise a saved active blank with the template's fields, the given creator, computed parameters, generated rows and totals with nothing made; with positive working time it plans at least the template's quantity |
| Templates.WeekdayFlags | shift_report/models/pa_template.py:71-77 | a template has seven weekday flags, Monday first |
| Templates.NewTemplate | shift_report/models/pa_template.py:57-88 | a template with the column defaults: type 1, any shift, active, Monday to Friday |
| Templates.IsApplicableForWeekday | shift_report/models/pa_template.py:112-128 | true exactly for a weekday 0-6 whose flag is set; any other key gives false |
| Templates.DefaultTemplateWorkdays | shift_report/models/pa_template.py:71-128 | with the default flags a template applies exactly on weekdays 0 to 4 |
| Templates.CreateBlank | shift_report/models/pa_template.py:130-153 | no shift or a taken key fails; otherwise a saved draft blank with the template's fields, computed parameters and no rows |
| BlankForms.CleanPlannedQuantity | shift_report/forms/blanks.py:58-65 | a missing value is required, a value below 1 is refused, and otherwise the value passes |
| BlankForms.AcceptedPlanIsClassifiable | shift_report/forms/blanks.py:58-65 | a plan the form accepts never makes the classifier fail |
| BlankForms.BlankCreateClean | shift_report/forms/blanks.py:102-119 | the form fails exactly when all three fields are present and their key is taken |
| BlankForms.FormGuardKeepsKeysUnique | shift_report/forms/blanks.py:102-119 | a key the form lets through is new, so adding it keeps the keys unique |
| BlankForms.BulkCreateClean | shift_report/forms/blanks.py:189-203 | with both dates present: start after end fails, a span over 30 days fails; otherwise the form passes |
| BlankForms.BulkDates | shift_report/views/blanks.py:206-244 | the k-th date is the first date plus k, for every date up to the last one included; an empty list when the period is reversed |
| BlankForms.AcceptedPeriodLength | shift_report/forms/blanks.py:189-203 | an accepted period covers 1 to 31 dates; 30 days is accepted and 31 refused |
| AuthForms.CharFieldClean | shift_report/forms/auth.py:18-33 | the field stage strips the value; an empty value is required, a long one too long, and otherwise the stripped value passes |
| AuthForms.CleanPersonnelNumber | shift_report/forms/auth.py:52-62 | passes exactly a stripped value made of digits, which it returns; an empty value gets its own error |
| AuthForms.CleanPin | shift_report/forms/auth.py:64-77 | passes exactly a stripped PIN of 4 to 6 digits; the emptiness and digit errors come in that order |
| AuthForms.CleanNewPin | shift_report/forms/auth.py:131-141 | passes exactly a stripped PIN of 4 to 6 digits; a non-digit value, including an empty one, gets the digits error |
| AuthForms.NewPinRuleMatchesLoginRule | shift_report/forms/auth.py:64-141 | the new-PIN rule and the login rule accept the same PINs and differ only in the error for an empty value |
| AuthForms.PersonnelNumberFieldAccepts | shift_report/forms/auth.py:18-62 | through the form, a personnel number passes exactly when it is 1 to 20 digits after stripping; the validator's own emptiness error never shows |
| AuthForms.LoginPinFieldAccepts | shift_report/forms/auth.py:31-77 | through the form, a login PIN passes exactly when it is a PIN after stripping; too long is reported by the field stage |
| AuthForms.PinChangeClean | shift_report/forms/auth.py:143-152 | a mismatch is reported exactly when both values are present, non-empty and different |
| AuthForms.PinChangeAcceptsMatchingPins | shift_report/forms/auth.py:96-152 | the change form accepts exactly a well-formed new PIN typed the same way twice, up to surrounding whitespace |
| Decorators.RoleRequired | shift_report/decorators.py:13-43 | anonymous users go to the login page; the view runs exactly for administrators, superusers and the listed roles |
| Decorators.ReadyMadeGuardsNested | shift_report/decorators.py:46-63 | the four ready-made guards are nested, and each admits exactly the roles from its level up |
| Decorators.AdministratorsAlwaysPass | shift_report/decorators.py:28-33 | administrators and superusers pass any role list, even an empty one; anonymous users never pass |
| Decorators.MixinDispatch | shift_report/decorators.py:66-90 | like the decorator, except that an empty role list admits every authenticated user |
| Decorators.MixinAgreesWithDecorator | shift_report/decorators.py:66-90 | with a non-empty list the mixin decides as the decorator; with an empty list they differ |
| Decorators.ReadyMadeMixinsMatchDecorators | shift_report/decorators.py:93-110 | the four mixin subclasses decide exactly as the four ready-made decorators |
| AccessMiddleware.FullUrlName | shift_report/middleware/__init__.py:48-54 | none when resolving fails; the bare name without a namespace; otherwise namespace, colon and name |
| AccessMiddleware.PrefixesFor | shift_report/middleware/__init__.py:29-34 | a prefix list exactly for the operator, master and chief roles |
| AccessMiddleware.MatchesPrefix | shift_report/middleware/__init__.py:75-79 | true exactly when the name starts with one of the prefixes |
| AccessMiddleware.Decide | shift_report/middleware/__init__.py:39-86 | never raises; bypassed and public paths pass; an anonymous user asking for any other path goes to login with the path as `next`; administrators pass; a role outside the table goes to the login page |
| AccessMiddleware.KnownRoleAccess | shift_report/middleware/__init__.py:64-86 | for a role in the table, a request passes exactly when it is bypassed, public, under the role's prefixes or a common page; otherwise it goes home |
| AccessMiddleware.RolePrefixesNested | shift_report/middleware/__init__.py:29-34 | whatever an operator may open, a master may; whatever a master may open, a chief may |
| AccessMiddleware.AsWrittenDiffersOnlyByCrash | shift_report/middleware/__init__.py:48-86 | the code as written raises exactly for an unresolvable path and a logged-in non-administrator with a known role; otherwise it agrees with the corrected version |
| AccessMiddleware.UnknownPathCrashesForOperator | shift_report/middleware/__init__.py:49-82 | an operator asking for an unknown path makes the written code raise; the corrected version sends them home |
| RoleTags.HasRole | shift_report/templatetags/role_tags.py:10-21 | true exactly for a logged-in user with that exact role; administrators get no override |
| RoleTags.RoleList | shift_report/templatetags/role_tags.py:35 | one entry per comma-separated piece, each a plain name (no comma, no surrounding whitespace); a string without a comma gives the one stripped entry |
| RoleTags.HasAnyRole | shift_report/templatetags/role_tags.py:24-36 | true exactly for a logged-in user whose role equals one of the comma-separated pieces once stripped |
| RoleTags.RoleListOfJoinedNames | shift_report/templatetags/role_tags.py:35 | plain names joined with commas read back as the same list |
| RoleTags.UserCanAccess | shift_report/templatetags/role_tags.py:39-53 | true exactly for a logged-in administrator, a superuser, or a user whose role is listed |
| RoleTags.HasAnyRoleOfJoinedNames | shift_report/templatetags/role_tags.py:24-36 | for plain names joined by commas, the filter is true exactly when the logged-in user's role is one of them |
| RoleTags.HasAnyRoleOfOneName | shift_report/templatetags/role_tags.py:10-36 | for a single plain name the list filter agrees with the single-role filter |
| RoleTags.PlainNameIsItsOwnList | shift_report/templatetags/role_tags.py:35 | a plain name read as a list is the one-element list of itself |
| RoleTags.UserCanAccessMatchesDecorator | shift_report/templatetags/role_tags.py:39-53 | the tag decides as the `role_required` decorator lets a view run |
| RoleTags.FiltersWithoutOverride | shift_report/templatetags/role_tags.py:10-53 | administrators pass the tag but not the filters; for anyone else the tag and the list filter agree; a missing user passes nothing |
| PyStr.Strip | shift_report/forms/auth.py:54 | a stripped value has no whitespace at either end; it is empty exactly when the input is all whitespace; an already stripped input is returned as it is |
| PyStr.Split | shift_report/templatetags/role_tags.py:35 | at least one piece, none holds the separator, and joining the pieces gives the input back |
| PyStr.SplitJoin | shift_report/templatetags/role_tags.py:35 | splitting pieces joined by the separator gives the pieces back, when none of them contains it |
| RecordEntry.EnteredRow | shift_report/views/operator.py:197-205 | the entered row holds the figure, the filled flag, time and user, and deviation actual minus planned; nothing else changes |
| RecordEntry.EnterActual | shift_report/views/operator.py:178-215 | a missing hour or a blank that cannot be edited changes nothing; otherwise the rows become the entered and refreshed rows and the totals match them |
| RecordEntry.Enter | shift_report/views/operator.py:195-215 | save, cumulative refresh and totals, in the view's order, leave the rows after the entry with matching totals |
| RecordEntry.EntryMovesTotalsByTheChange | shift_report/views/operator.py:195-215 | after an entry the total plan stays the same and the total fact moves by exactly the change at the entered hour |
| RecordEntry.EnteredRowKeepsStoredCumulative | shift_report/models/pa_record.py:155-169 | the entered hour's stored row keeps its old cumulative figures, because only the in-memory instance received the new ones |

## Left out

- Database access, transactions, model metadata other than the unique constraints, and the Django admin are not modelled. Queries become the blank's row sequence, and existence checks become a set of taken keys.
- Decimal precision and quantization are not modelled: takt time, rate and completion are exact rationals. The stored `DecimalField` values have two places, and Decimal arithmetic has 28 digits; neither is modelled.
- `math.ceil(float(...))` is modelled as an exact ceiling. `math.ceil(hourly_plan * remaining_minutes / 60)` is modelled as an integer ceiling division.
- Times are whole minutes; seconds do not occur.
- `str.isdigit` is modelled for ASCII digits only; other Unicode digits are not.
- Django's CharField null-character validator and the collection of several errors per form are not modelled. Each field reports its first error.
- Form `__init__` methods (queryset narrowing by the user's sector or workshop) and the form widgets are not modelled.
- `clean_current_pin`, PIN hashing, and `PINChangeForm.save` are not modelled. They call into the employee model, which is not part of this model.
- `create_blanks_for_sector` is not modelled. It is a loop over database rows that calls `create_from_template` and skips on error; its parts are modelled.
- The deviation-reason side effect of the operator view (`_process_deviations`) is not modelled, and nor is any other view code than the entry sequence in `RecordEntry`.
- RecordEntry.EnterActual: takes the figure as a natural number, so the `int(...)` parsing of the form data, with its fallback to 0, is not modelled.
- The classifier's production-rate computation is not modelled beyond the division that can fail, because its result is never used.
- The template's and the generator's failed inserts (a missing shift, a taken key) are modelled as error results, not as database exceptions.
- Generator.EffectiveHourlyPlan: requires a stored rate to be positive. That is the only kind of rate `_calculate_parameters` stores, and the blank's invariant keeps it so.
- `AutoLogoutMiddleware`, the value of `settings.LOGIN_URL`, messages and redirects' URLs are not modelled; a redirect is a response tag.
- Blanks.PABlank.CalculateCumulative: finds the edited hour's row by hour number rather than by primary key. Under the unique (blank, hour) constraint the two identify the same row.
- Blanks.RefreshWalk: returns the running sums for the edited instance, and the method sets them on the instance after the walk, not during it. The walk never reads the instance, so the result is the same.
- The `updated_at` and `created_at` stamps, analytics, import and export, and the management commands are not modelled.
- Blanks.PABlank.CurrentCompletionPercentage: for a blank dated today it counts the hours that have ended since the shift started (the corrected rule, see Findings), not the hours whose end time of day is at or before now.
- Blanks.PABlank.StatusColor: follows the corrected completion so far, so its colour can differ from the source's on an overnight shift (see Findings).
- Records.CompletionPercentage: computes `actual / planned * 100` as an exact ratio; the source divides Python floats, whose rounding is not modelled.

## Findings

| source | as written | input that shows it | evidently intended | confidence | as-written member | corrected member |
|---|---|---|---|---|---|---|
| shift_report/models/pa_blank.py:279-281 | an hour counts as ended when its end time of day is at or before the current time of day | a shift from 23:00, at 23:30 on its own date: the hours ending 00:00 and 01:00 count as ended, giving 25.00 percent when no hour has ended | count the hours that have ended since the shift started | not executed | Blanks.CompletionToDateAsWritten, Blanks.AsWrittenCountsUnfinishedOvernightHours | Blanks.CompletionToDate, Blanks.CompletionToDateIgnoresPending |
| shift_report/middleware/__init__.py:49-82 | when `resolve` raises, `url_name` is never bound, but the common-page test reads it | an operator requesting a path with no URL pattern: an exception escapes the middleware | treat an unresolvable path as having no name and refuse it | not executed | AccessMiddleware.DecideAsWritten, AccessMiddleware.UnknownPathCrashesForOperator | AccessMiddleware.Decide, AccessMiddleware.AsWrittenDiffersOnlyByCrash |

The corrected completion rule counts an hour as ended when the shift has
started and the hour's end, measured from the shift start, is no later
than the current time. The source returns the stored figure whenever the
blank is not dated today. So on the blank's own date a current time
before the shift start means that nothing has ended yet.
