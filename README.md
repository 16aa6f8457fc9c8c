# Date picker selection core, in Dafny

This project models the selection logic of the `date-picker` Android library (Kotlin) and proves
properties of that model.

- **`DatePickerController`** is the session controller of one picker. It owns the month being
  viewed and the selected day. It moves between months, selects days through `setFullDate`,
  notifies the registered date-changed listeners with `(old, new)` and drives the two render
  callbacks (headers and month items).
- **`SelectedDate`** is the single-day / date-range selection object. Its implementation is not
  part of this model. Its unit tests fix the behaviour that is modelled here.

Files:

- `options.dfy`: Kotlin nullables as `Option`.
- `dates.dfy` (module `Dates`): days and months as `(year, 0-based month, day)` values.
  - Valid days use Gregorian month lengths.
  - One month forward or back carries across the year boundary.
  - A `java.util.Calendar` is represented by the day it denotes. Setting its fields is lenient:
    - `NormalizeMonth` carries a month outside 0..11 into the year.
    - `LenientDay` lets a day outside the month run on into the following or preceding months, as
      many as needed.
- `controller.dfy` (module `Controller`): the class `DatePickerController`.
  - Every effect the controller has on the code around it is appended to the field `trace`, in
    order: each listener call, each header render and each month-items render.
  - The clock (`getNow()`) is a `now` argument of each operation that reads it.
  - The text parser of the input field is the function `parseInput`, given at construction.
- `selected_date.dfy` (module `Selection`): the class `SelectedDate`. The two unit tests are
  restated as client methods, generalised to any two days.

Invariant. `DatePickerController.Valid()` holds before and after every public operation. It says:

- `selectedDateCalendar` mirrors `selectedDate`;
- `didInit`, "a day is selected" and "a month is viewed" are true together;
- the month graph is always built for the viewed month.

No operation ever resets `didInit`. Together these make the source's `!!` dereferences safe
after initialisation.

Points where the model follows the code and its unit tests:

- In RANGE mode, `get()` is null while only the low end is set. Once both ends are set it returns
  the low end (`SelectedDateTest.kt`).
- `setMonth` accepts any integer. A month outside 0..11 carries into the year, by as many years
  as needed, as a lenient calendar does. It is not confined to the current year.
- `setYear` takes the month from the viewed month, not from the selected day. It keeps the
  selected day of month. When that day does not exist in the new year's month (29 February,
  or day 31 in a shorter month), the calendar rolls it over into the next month.

## Model

| member | source | states |
|---|---|---|
| `Controller.DatePickerController.constructor` | library/src/main/java/com/afollestad/date/controllers/DatePickerController.kt:47-64 | a new controller is uninitialised: nothing is selected or viewed, there are no listeners, and the session invariant holds |
| `Controller.DatePickerController.SetSelectedDate` | library/src/main/java/com/afollestad/date/controllers/DatePickerController.kt:59-63 | the `selectedDate` setter also rewrites the mirrored calendar |
| `Controller.DatePickerController.MaybeInit` | library/src/main/java/com/afollestad/date/controllers/DatePickerController.kt:66-70 | the first call selects and views "now", renders once and notifies no listener; once initialised, the call changes nothing |
| `Controller.DatePickerController.PreviousMonth` | library/src/main/java/com/afollestad/date/controllers/DatePickerController.kt:72-77 | the viewed month and the graph move one month back, with year carry, and the mode becomes CALENDAR; selection, listeners and `didInit` are untouched; nobody is notified and one render follows |
| `Controller.DatePickerController.NextMonth` | library/src/main/java/com/afollestad/date/controllers/DatePickerController.kt:79-84 | the same, one month forward |
| `Controller.DatePickerController.SetMonth` | library/src/main/java/com/afollestad/date/controllers/DatePickerController.kt:86-91 | the mode becomes CALENDAR and the viewed month and the graph move to the lenient month `m` of the viewed year, which is exactly `(viewed year, m)` when `0 <= m < 12`; selection, listeners and `didInit` are untouched, nobody is notified and one render follows |
| `Controller.DatePickerController.SetFullDate` | library/src/main/java/com/afollestad/date/controllers/DatePickerController.kt:93-114 | selecting the selected day again is a complete no-op; any other day becomes selected and viewed and sets `didInit`; listeners hear (previous selection or now, new) only when asked, in registration order; then one render |
| `Controller.DatePickerController.SetFullDateParts` | library/src/main/java/com/afollestad/date/controllers/DatePickerController.kt:116-129 | selects now's calendar with the given year, month and day fields put in, each lenient; fields left out keep now's values |
| `Controller.DatePickerController.MaybeSetDateFromInput` | library/src/main/java/com/afollestad/date/controllers/DatePickerController.kt:131-138 | blank text (`IsBlank`: empty, or only characters that `IsWhitespace` accepts, the JVM's `Character.isWhitespace` together with `isSpaceChar`) or a failed parse changes nothing and notifies nobody; a parsed day is selected with the from-input flag and notifies the listeners |
| `Controller.DatePickerController.GetFullDate` | library/src/main/java/com/afollestad/date/controllers/DatePickerController.kt:140 | returns the calendar of the selected day; it is present exactly when the controller is initialised |
| `Controller.DatePickerController.SetDayOfMonth` | library/src/main/java/com/afollestad/date/controllers/DatePickerController.kt:142-154 | before init: selects day `d` of now's month via `setFullDate`; after init: selects day `d` of the viewed month, which is exactly `(viewed year, viewed month, d)` when `d` exists, keeps the viewed month and notifies every listener even when the day was already selected |
| `Controller.DatePickerController.SetYear` | library/src/main/java/com/afollestad/date/controllers/DatePickerController.kt:156-163 | selects the selected day of month in the viewed month of year `y`, through `setFullDate` with notification; the result is exactly `(y, month, day)` when that day exists; the mode ends as CALENDAR |
| `Controller.DatePickerController.AddDateChangedListener` | library/src/main/java/com/afollestad/date/controllers/DatePickerController.kt:165 | appends the listener to the end of the list and reports success |
| `Controller.DatePickerController.ClearDateChangedListeners` | library/src/main/java/com/afollestad/date/controllers/DatePickerController.kt:167 | empties the listener list |
| `Controller.DatePickerController.UpdateMonthAndPerformRender` | library/src/main/java/com/afollestad/date/controllers/DatePickerController.kt:169-173 | views the calendar's month and renders once |
| `Controller.DatePickerController.UpdateCurrentMonth` | library/src/main/java/com/afollestad/date/controllers/DatePickerController.kt:175-178 | the viewed month and the month the graph is built for both become the calendar's month |
| `Controller.DatePickerController.Render` | library/src/main/java/com/afollestad/date/controllers/DatePickerController.kt:180-190 | headers are rendered when a month is viewed, then the month items when a day is selected; it only reads the state |
| `Controller.DatePickerController.NotifyListeners` | library/src/main/java/com/afollestad/date/controllers/DatePickerController.kt:192-197 | calls every registered listener once, in registration order, with the same (old, new) pair |
| `Controller.Notifications` | library/src/main/java/com/afollestad/date/controllers/DatePickerController.kt:196 | the i-th notification goes to the i-th listener, and there are as many notifications as listeners |
| `Controller.DatePickerController.CurrentSelectedOrNow` | library/src/main/java/com/afollestad/date/controllers/DatePickerController.kt:199 | "old" is the selected day once initialised, and "now" before that |
| `Controller.SetFullDateTwice` | library/src/main/java/com/afollestad/date/controllers/DatePickerController.kt:98-102 | selecting the same day twice notifies the listeners at most once, and the second call renders nothing |
| `Controller.MaybeInitTwice` | library/src/main/java/com/afollestad/date/controllers/DatePickerController.kt:66-70 | two initialisations equal one, whatever the clock reads at the second |
| `Controller.NextThenPrevious` | library/src/main/java/com/afollestad/date/controllers/DatePickerController.kt:72-84 | one month forward then one back restores the viewed month, across December and January too, and leaves the selection alone |
| `Dates.MonthOf` | library/src/main/java/com/afollestad/date/controllers/DatePickerController.kt:176 | the month of a day, from which that day is recovered by setting its day-of-month field to the day's own day |
| `Dates.LenientDay` | library/src/main/java/com/afollestad/date/controllers/DatePickerController.kt:149 | a day field that exists in the month denotes exactly that day of the month (the same conversion serves the navigation at lines 74, 81 and 88); out-of-range fields are characterised by `Dates.LenientDayNext` and `Dates.LenientDayCountsFromFirst` |
| `Dates.IncrementMonth` | library/src/main/java/com/afollestad/date/controllers/DatePickerController.kt:81-82 | the month after has the next consecutive month index |
| `Dates.DecrementMonth` | library/src/main/java/com/afollestad/date/controllers/DatePickerController.kt:74-75 | the month before has the previous consecutive month index |
| `Dates.IncrementDecrement` | library/src/main/java/com/afollestad/date/controllers/DatePickerController.kt:74-82 | one month forward and one month back are inverse, in both orders |
| `Dates.NormalizeMonth` | library/src/main/java/com/afollestad/date/controllers/DatePickerController.kt:88-89 | setting the MONTH field to `m` denotes the month `m` months after January of the year; a month in 0..11 is kept as given |
| `Dates.Lenient` | library/src/main/java/com/afollestad/date/controllers/DatePickerController.kt:121-129 | year, month and day fields that form a valid day denote exactly that day; otherwise they roll over |
| `Dates.LenientDayNext` | library/src/main/java/com/afollestad/date/controllers/DatePickerController.kt:149 | for every integer day field, raising it by one moves the denoted day to the next calendar day |
| `Dates.LenientDayCountsFromFirst` | library/src/main/java/com/afollestad/date/controllers/DatePickerController.kt:149 | day field `1 + k` of a month denotes the day `k` days after the first of that month |
| `Dates.AddDays` | library/src/main/java/com/afollestad/date/controllers/DatePickerController.kt:149 | a positive number of days after a day is chronologically later |
| `Selection.SelectedDate.constructor` | library/src/test/java/com/afollestad/date/data/SelectedDateTest.kt:15 | a new selection is empty and fills the low slot next |
| `Selection.SelectedDate.SetMode` | library/src/test/java/com/afollestad/date/data/SelectedDateTest.kt:18-19 | assigning the mode of an empty selection leaves it empty, with `current == CURRENT_IS_LOW` |
| `Selection.SelectedDate.Set` | library/src/test/java/com/afollestad/date/data/SelectedDateTest.kt:21-57 | SINGLE: `set(x)` makes `x` the low end and leaves no high end. RANGE, empty: `x` becomes the low end and the high slot is next. RANGE, low end `a` set and high next: a later `y` becomes the high end and `a` stays |
| `Selection.SelectedDate.Get` | library/src/test/java/com/afollestad/date/data/SelectedDateTest.kt:23-53 | SINGLE: the selected day. RANGE with only the low end set: nothing. RANGE with both ends set: the low end |
| `Selection.SelectedDate.GetCalendar` | library/src/test/java/com/afollestad/date/data/SelectedDateTest.kt:24-55 | the same three cases as `get()`, as a calendar |
| `Selection.SelectedDate.GetRange` | library/src/test/java/com/afollestad/date/data/SelectedDateTest.kt:37-61 | nothing in SINGLE mode once a day is set; `(low, high)` in RANGE mode once both ends are set |
| `Selection.SingleSelectionMode` | library/src/test/java/com/afollestad/date/data/SelectedDateTest.kt:17-38 | for any two days, the assertions of `single selection mode` hold |
| `Selection.RangeSelectionMode` | library/src/test/java/com/afollestad/date/data/SelectedDateTest.kt:40-62 | for any day and any later day, the assertions of `range selection mode` hold |

## Left out

- The month graph (`MonthGraph`, `getMonthItems`) is not part of this model. A render of month
  items is recorded with the graph's month and the selected day; the grid cells are not modelled.
- Haptic feedback (`vibrateForSelection`) is a side effect with no state, so it is left out.
- The render callbacks and the listeners are recorded in `trace`. They are not executed, so a
  listener that re-enters the controller is not modelled.
- A `java.util.Calendar` is represented by the day it denotes. Left out:
  - time of day and time zones;
  - `clone`, and the aliasing of the calendar objects handed to listeners;
  - the Julian calendar before the 1582 Gregorian cutover;
  - eras: years below 1 are proleptic astronomical years here.
- Controller.DatePickerController.GetFullDate returns the controller's internal calendar; changes
  a caller makes to it are not modelled (they would break the mirror stated by `Valid()` and
  alter the "old" calendar later handed to listeners).
- Years and the integer arguments are unbounded here. The source's 32-bit `Int` arguments
  (`setMonth`, `setFullDate`, `setDayOfMonth`, `setYear`) and the calendar's millisecond range
  (about ±292 million years) are not modelled.
- The clock is read once per operation. The source may call `getNow()` twice in one operation
  (for the new value and for "old" before init), and those two reads could differ.
- The date input parser is the opaque function `parseInput`. `None` stands for both a null
  result and a `ParseException`. Other exceptions from the parser are not modelled.
- `currentMode` is delegated to the configuration in the source. Here it is a field of the
  controller. Only CALENDAR is ever assigned; the other two modes are not part of this model.
- The `@VisibleForTesting` fields can be written directly from outside. Such writes bypass
  `Valid()` and are not modelled.
- Controller.DatePickerController.PreviousMonth, NextMonth, SetMonth and SetYear require an
  initialised controller. The source dereferences `viewingMonth!!` (or `selectedDate!!`) and
  throws before `maybeInit`.
- Controller.DatePickerController.SetYear: the source's fallback to the selected month when no
  month is viewed is unreachable under `Valid()`, so the model always uses the viewed month.
- Selection.SelectedDate.Set: states only the three transitions the tests exercise. Every other
  transition is whatever the external `UntestedRules.onSet` returns. This includes a second
  range end earlier than the first, a third `set` and `set` after a mode switch. So does
  `current` after a SINGLE-mode set or after the range is closed, since the tests never read it.
  The one exception is `current` after the first RANGE-mode set: it is the high slot, because
  the second `set` fills the high end.
- Selection.SelectedDate.SetMode: states the outcome only for an empty selection. Switching
  modes on a non-empty selection is whatever `UntestedRules.onMode` returns.
- Selection.SelectedDate.Get: states only the three tested cases. Any other state answers
  `UntestedRules.get`.
- Selection.SelectedDate.GetRange: states only the tested cases (SINGLE with one day, RANGE with
  both ends). Any other state answers `UntestedRules.range`.
- Selection.SelectedDate.GetCalendar: a calendar is represented by its day, so `getCalendar()`
  returns what `get()` returns.
- The default mode of a new SelectedDate is not shown. It is `UntestedRules.defaultMode`.
