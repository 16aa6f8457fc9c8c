/**
 * The picker's session controller: it owns the month being viewed and the selected day, fires
 * date-changed notifications and drives the two render callbacks. Everything the controller hands
 * to code outside it (listener calls, header and month-item renders) is recorded, in order, in
 * `trace`; the clock is a `now` argument of each operation that reads it, and the text parser of
 * the date input field is the function `parseInput` given at construction.
 */
module Controller {
  import opened Options
  import opened Dates

  /** What the picker shows: the day grid or one of the month/year lists. */
  datatype Mode = Calendar | MonthList | YearList

  /** Handle of an OnDateChanged callback registered with the controller. */
  type ListenerId = nat

  /** An effect of the controller on the code around it. */
  datatype Event =
    | DateChanged(listener: ListenerId, oldDate: Date, newDate: Date)
    | HeadersRendered(month: Month, selected: Date, fromUserEditInput: bool)
    | MonthItemsRendered(graph: Month, selected: Date)

  /** One call per listener, in registration order, each with the same (old, new) pair. */
  function Notifications(listeners: seq<ListenerId>, oldDate: Date, newDate: Date): (events: seq<Event>)
    ensures |events| == |listeners|
    ensures forall i :: 0 <= i < |listeners| ==> events[i] == DateChanged(listeners[i], oldDate, newDate)
  {
    if listeners == [] then []
    else [DateChanged(listeners[0], oldDate, newDate)] + Notifications(listeners[1..], oldDate, newDate)
  }

  /** A full render once month and graph agree: the headers, then the grid of the month. */
  function RenderCycle(month: Month, selected: Date, fromUserEditInput: bool): seq<Event>
  {
    [HeadersRendered(month, selected, fromUserEditInput), MonthItemsRendered(month, selected)]
  }

  /** Kotlin's Char.isWhitespace on the JVM (Java whitespace or a Unicode space character). */
  predicate IsWhitespace(c: char)
  {
    var n := c as int;
    (0x09 <= n <= 0x0D) || (0x1C <= n <= 0x20) || n == 0xA0 || n == 0x1680
    || (0x2000 <= n <= 0x200A) || n == 0x2028 || n == 0x2029 || n == 0x202F
    || n == 0x205F || n == 0x3000
  }

  /** Kotlin's CharSequence.isBlank: empty or whitespace only. */
  predicate IsBlank(s: string)
  {
    forall i :: 0 <= i < |s| ==> IsWhitespace(s[i])
  }

  class DatePickerController {
    /** The date input formatter's parse; None stands for both a null result and a parse error. */
    const parseInput: string -> Option<Date>
    var didInit: bool
    var dateChangedListeners: seq<ListenerId>
    var currentMode: Mode
    var viewingMonth: Option<Month>
    /** The month the current MonthGraph was built for. */
    var monthGraph: Option<Month>
    var selectedDate: Option<Date>
    var selectedDateCalendar: Option<Date>
    var trace: seq<Event>

    /**
     * The session invariant: the calendar mirrors the snapshot, and the selection, the viewed
     * month and the month graph exist exactly when the controller has been initialised. It is what
     * makes the `!!` dereferences of render and of the navigation operations safe.
     */
    ghost predicate Valid()
      reads this
    {
      && selectedDateCalendar == selectedDate
      && (selectedDate.Some? <==> didInit)
      && (viewingMonth.Some? <==> didInit)
      && monthGraph == viewingMonth
    }

    constructor (parseInput: string -> Option<Date>, mode: Mode)
      ensures Valid() && !didInit
      ensures this.parseInput == parseInput && currentMode == mode
      ensures dateChangedListeners == [] && trace == []
    {
      this.parseInput := parseInput;
      didInit := false;
      dateChangedListeners := [];
      currentMode := mode;
      viewingMonth := None;
      monthGraph := None;
      selectedDate := None;
      selectedDateCalendar := None;
      trace := [];
    }

    /**
     * The outcome of `setFullDate(date)`: nothing at all when `date` is already selected;
     * otherwise `date` is selected and viewed, listeners hear (previous selection or now, date)
     * when asked to, and one render follows.
     */
    twostate predicate FullDateSet(date: Date, now: Date, notifyListeners: bool, fromUserEditInput: bool)
      reads this
    {
      if old(selectedDate) == Some(date) then
        && didInit == old(didInit)
        && selectedDate == old(selectedDate)
        && selectedDateCalendar == old(selectedDateCalendar)
        && viewingMonth == old(viewingMonth)
        && monthGraph == old(monthGraph)
        && dateChangedListeners == old(dateChangedListeners)
        && trace == old(trace)
      else
        && didInit
        && selectedDate == Some(date)
        && selectedDateCalendar == Some(date)
        && viewingMonth == Some(MonthOf(date))
        && monthGraph == viewingMonth
        && dateChangedListeners == old(dateChangedListeners)
        && trace == old(trace)
             + (if notifyListeners
                then Notifications(dateChangedListeners, old(selectedDateCalendar).GetOr(now), date)
                else [])
             + RenderCycle(MonthOf(date), date, fromUserEditInput)
    }

    /**
     * The outcome of a month navigation to `target`: the grid shows `target`, the selection and
     * the listeners are untouched, nobody is notified and one render follows.
     */
    twostate predicate MovedTo(target: Month)
      reads this
    {
      && currentMode == Calendar
      && viewingMonth == Some(target)
      && monthGraph == Some(target)
      && didInit == old(didInit)
      && selectedDate == old(selectedDate)
      && selectedDateCalendar == old(selectedDateCalendar)
      && dateChangedListeners == old(dateChangedListeners)
      && old(selectedDate).Some?
      && trace == old(trace) + RenderCycle(target, old(selectedDate).value, false)
    }

    /** The `selectedDate` setter, which keeps the calendar in step. */
    method SetSelectedDate(value: Option<Date>)
      modifies this`selectedDate, this`selectedDateCalendar
      ensures selectedDate == value && selectedDateCalendar == value
    {
      selectedDate := value;
      selectedDateCalendar := value;
    }

    method MaybeInit(now: Date)
      requires Valid()
      modifies this
      ensures Valid() && didInit && currentMode == old(currentMode)
      ensures old(didInit) ==> unchanged(this)
      ensures !old(didInit) ==>
        && selectedDate == Some(now)
        && viewingMonth == Some(MonthOf(now))
        && dateChangedListeners == old(dateChangedListeners)
        && trace == old(trace) + RenderCycle(MonthOf(now), now, false)
    {
      if !didInit {
        SetFullDate(now, now, false, false);
      }
    }

    method PreviousMonth()
      requires Valid() && didInit
      modifies this
      ensures Valid() && MovedTo(DecrementMonth(old(viewingMonth).value))
    {
      currentMode := Calendar;
      // day 1 of the viewed month, one month back: day 1 exists in every month
      var first := MonthStart(DecrementMonth(MonthOf(LenientDay(viewingMonth.value, DAY_MIN))));
      UpdateMonthAndPerformRender(first);
    }

    method NextMonth()
      requires Valid() && didInit
      modifies this
      ensures Valid() && MovedTo(IncrementMonth(old(viewingMonth).value))
    {
      currentMode := Calendar;
      var first := MonthStart(IncrementMonth(MonthOf(LenientDay(viewingMonth.value, DAY_MIN))));
      UpdateMonthAndPerformRender(first);
    }

    method SetMonth(month: int)
      requires Valid() && didInit
      modifies this
      ensures Valid() && MovedTo(NormalizeMonth(old(viewingMonth).value.year, month))
      ensures 0 <= month < 12 ==> viewingMonth == Some(MonthSnapshot(old(viewingMonth).value.year, month))
    {
      currentMode := Calendar;
      var calendar := Lenient(viewingMonth.value.year, month, DAY_MIN);
      UpdateMonthAndPerformRender(calendar);
    }

    /** `setFullDate(calendar, notifyListeners, fromUserEditInput)`, with the calendar's day. */
    method SetFullDate(date: Date, now: Date, notifyListeners: bool, fromUserEditInput: bool)
      requires Valid()
      modifies this
      ensures Valid() && currentMode == old(currentMode)
      ensures FullDateSet(date, now, notifyListeners, fromUserEditInput)
    {
      if selectedDate == Some(date) {
        // no change
        return;
      }
      var oldSelected := CurrentSelectedOrNow(now);
      didInit := true;
      SetSelectedDate(Some(date));
      if notifyListeners {
        NotifyListeners(oldSelected, date);
      }
      UpdateCurrentMonth(date);
      Render(fromUserEditInput);
    }

    /**
     * `setFullDate(year, month, selectedDate, notifyListeners)`: now's calendar with its year
     * (when given), month and day (when given) fields replaced.
     */
    method SetFullDateParts(year: Option<int>, month: int, day: Option<int>, now: Date, notifyListeners: bool)
      requires Valid()
      modifies this
      ensures Valid() && currentMode == old(currentMode)
      ensures FullDateSet(Lenient(year.GetOr(now.year), month, day.GetOr(now.day)), now, notifyListeners, false)
    {
      var date := Lenient(year.GetOr(now.year), month, day.GetOr(now.day));
      SetFullDate(date, now, notifyListeners, false);
    }

    method MaybeSetDateFromInput(input: string, now: Date)
      requires Valid()
      modifies this
      ensures Valid() && currentMode == old(currentMode)
      ensures IsBlank(input) || parseInput(input).None? ==> unchanged(this)
      ensures !IsBlank(input) && parseInput(input).Some? ==> FullDateSet(parseInput(input).value, now, true, true)
    {
      if IsBlank(input) {
        return;
      }
      var parsed := parseInput(input);
      if parsed.Some? {
        SetFullDate(parsed.value, now, true, true);
      }
    }

    function GetFullDate(): (calendar: Option<Date>)
      reads this
      requires Valid()
      ensures calendar == selectedDate
      ensures calendar.Some? <==> didInit
    {
      selectedDateCalendar
    }

    method SetDayOfMonth(day: int, now: Date)
      requires Valid()
      modifies this
      ensures Valid() && didInit && currentMode == old(currentMode)
      ensures !old(didInit) ==> FullDateSet(Lenient(now.year, now.month, day), now, true, false)
      ensures old(didInit) ==>
        var date := LenientDay(old(viewingMonth).value, day);
        && selectedDate == Some(date)
        && selectedDateCalendar == Some(date)
        && viewingMonth == old(viewingMonth)
        && monthGraph == old(monthGraph)
        && dateChangedListeners == old(dateChangedListeners)
        && trace == old(trace)
             + Notifications(dateChangedListeners, old(selectedDate).value, date)
             + RenderCycle(old(viewingMonth).value, date, false)
      ensures old(didInit) && DAY_MIN <= day <= DaysInMonth(old(viewingMonth).value.year, old(viewingMonth).value.month) ==>
        selectedDate == Some(DateSnapshot(old(viewingMonth).value.year, old(viewingMonth).value.month, day))
    {
      if !didInit {
        SetFullDateParts(None, now.month, Some(day), now, true);
        return;
      }
      var oldSelected := CurrentSelectedOrNow(now);
      var calendar := LenientDay(viewingMonth.value, day);
      SetSelectedDate(Some(calendar));
      NotifyListeners(oldSelected, calendar);
      Render(false);
    }

    /**
     * The viewed month is used; the source falls back to the selected month when no month is
     * viewed, which Valid() rules out once a day is selected (and before that the call fails).
     */
    method SetYear(year: int, now: Date)
      requires Valid() && didInit
      modifies this
      ensures Valid() && didInit && currentMode == Calendar
      ensures FullDateSet(Lenient(year, old(viewingMonth).value.month, old(selectedDate).value.day), now, true, false)
      ensures var month := old(viewingMonth).value.month;
              var day := old(selectedDate).value.day;
              day <= DaysInMonth(year, month) ==> selectedDate == Some(DateSnapshot(year, month, day))
    {
      var month := viewingMonth.value.month;
      var day := selectedDate.value.day;
      SetFullDateParts(Some(year), month, Some(day), now, true);
      currentMode := Calendar;
    }

    method AddDateChangedListener(listener: ListenerId) returns (added: bool)
      requires Valid()
      modifies this`dateChangedListeners
      ensures Valid()
      ensures dateChangedListeners == old(dateChangedListeners) + [listener] && added
    {
      dateChangedListeners := dateChangedListeners + [listener];
      added := true;
    }

    method ClearDateChangedListeners()
      requires Valid()
      modifies this`dateChangedListeners
      ensures Valid()
      ensures dateChangedListeners == []
    {
      dateChangedListeners := [];
    }

    method UpdateMonthAndPerformRender(calendar: Date)
      requires selectedDate.Some?
      modifies this`viewingMonth, this`monthGraph, this`trace
      ensures viewingMonth == Some(MonthOf(calendar)) && monthGraph == viewingMonth
      ensures trace == old(trace) + RenderCycle(MonthOf(calendar), selectedDate.value, false)
    {
      UpdateCurrentMonth(calendar);
      Render(false);
    }

    method UpdateCurrentMonth(calendar: Date)
      modifies this`viewingMonth, this`monthGraph
      ensures viewingMonth == Some(MonthOf(calendar)) && monthGraph == viewingMonth
    {
      viewingMonth := Some(MonthOf(calendar));
      monthGraph := Some(MonthOf(calendar));
    }

    /** Headers when a month is viewed, then the grid when a day is selected. */
    method Render(fromUserEditInput: bool)
      requires viewingMonth.Some? ==> selectedDate.Some?
      requires selectedDate.Some? ==> monthGraph.Some?
      modifies this`trace
      ensures trace == old(trace)
        + (if viewingMonth.Some? then [HeadersRendered(viewingMonth.value, selectedDate.value, fromUserEditInput)] else [])
        + (if selectedDate.Some? then [MonthItemsRendered(monthGraph.value, selectedDate.value)] else [])
    {
      if viewingMonth.Some? {
        trace := trace + [HeadersRendered(viewingMonth.value, selectedDate.value, fromUserEditInput)];
      }
      if selectedDate.Some? {
        trace := trace + [MonthItemsRendered(monthGraph.value, selectedDate.value)];
      }
    }

    method NotifyListeners(oldDate: Date, newDate: Date)
      modifies this`trace
      ensures trace == old(trace) + Notifications(dateChangedListeners, oldDate, newDate)
    {
      var i := 0;
      while i < |dateChangedListeners|
        invariant 0 <= i <= |dateChangedListeners|
        invariant trace == old(trace) + Notifications(dateChangedListeners[..i], oldDate, newDate)
      {
        trace := trace + [DateChanged(dateChangedListeners[i], oldDate, newDate)];
        i := i + 1;
      }
      assert dateChangedListeners[..i] == dateChangedListeners;
    }

    /** The calendar handed to listeners as "old": the selection, or now when there is none. */
    function CurrentSelectedOrNow(now: Date): (calendar: Date)
      reads this
      requires Valid()
      ensures didInit ==> calendar == selectedDate.value
      ensures !didInit ==> calendar == now
    {
      selectedDateCalendar.GetOr(now)
    }
  }

  /** Selecting the same day twice notifies the listeners at most once. */
  method SetFullDateTwice(c: DatePickerController, date: Date, now: Date, later: Date)
    requires c.Valid()
    modifies c
    ensures c.Valid() && c.selectedDate == Some(date)
    ensures old(c.selectedDate) == Some(date) ==> c.trace == old(c.trace)
    ensures old(c.selectedDate) != Some(date) ==>
      c.trace == old(c.trace)
        + Notifications(c.dateChangedListeners, old(c.selectedDate).GetOr(now), date)
        + RenderCycle(MonthOf(date), date, false)
  {
    c.SetFullDate(date, now, true, false);
    c.SetFullDate(date, later, true, false);
  }

  /** A second initialisation changes nothing, whatever the clock says by then. */
  method MaybeInitTwice(c: DatePickerController, now: Date, later: Date)
    requires c.Valid() && !c.didInit
    modifies c
    ensures c.Valid() && c.didInit && c.selectedDate == Some(now)
    ensures c.viewingMonth == Some(MonthOf(now))
    ensures c.trace == old(c.trace) + RenderCycle(MonthOf(now), now, false)
  {
    c.MaybeInit(now);
    c.MaybeInit(later);
  }

  /** Forward then back lands on the original month, across a year boundary too. */
  method NextThenPrevious(c: DatePickerController)
    requires c.Valid() && c.didInit
    modifies c
    ensures c.Valid() && c.viewingMonth == old(c.viewingMonth)
    ensures c.selectedDate == old(c.selectedDate) && c.didInit
    ensures c.dateChangedListeners == old(c.dateChangedListeners)
    ensures c.trace == old(c.trace)
      + RenderCycle(IncrementMonth(old(c.viewingMonth).value), old(c.selectedDate).value, false)
      + RenderCycle(old(c.viewingMonth).value, old(c.selectedDate).value, false)
  {
    c.NextMonth();
    c.PreviousMonth();
    IncrementDecrement(old(c.viewingMonth).value);
  }
}
