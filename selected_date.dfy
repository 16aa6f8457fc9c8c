/**
 * SelectedDate: one day (SINGLE mode) or the two ends of a range (RANGE mode), with `current`
 * naming the slot the next `set` fills. Its implementation is not part of this model; what is
 * fixed here is exactly what its unit tests observe. Every transition and query those tests do not
 * exercise is delegated to `UntestedRules`, supplied from outside, so the model neither invents
 * nor forbids any behaviour there.
 */
module Selection {
  import opened Options
  import opened Dates

  datatype SelectionMode = Single | Range

  /** Which slot the next `set` affects (CURRENT_IS_LOW / CURRENT_IS_HIGH). */
  datatype Slot = CurrentIsLow | CurrentIsHigh

  /** The whole state of a SelectedDate. */
  datatype Selection = Selection(mode: SelectionMode, current: Slot, low: Option<Date>, high: Option<Date>)

  /** The parts of SelectedDate's behaviour its tests leave open. */
  datatype UntestedRules = UntestedRules(
    defaultMode: SelectionMode,
    onMode: (Selection, SelectionMode) -> Selection,
    onSet: (Selection, Date) -> Selection,
    get: Selection -> Option<Date>,
    range: Selection -> Option<(Date, Date)>)

  /** What one round of the tests' assertions reads from the object. */
  datatype Observation = Observation(get: Option<Date>, calendar: Option<Date>, low: Option<Date>, high: Option<Date>)

  /** A fresh selection: nothing selected, the low slot next. */
  predicate IsEmpty(s: Selection)
  {
    s.current == CurrentIsLow && s.low == None && s.high == None
  }

  /** SINGLE mode with no high end: every `set` replaces the one selected day. */
  predicate IsSingleSet(s: Selection)
  {
    s.mode == Single && s.high == None
  }

  /** RANGE mode, nothing selected yet: `set` fills the low end. */
  predicate IsFirstRangeSet(s: Selection)
  {
    s.mode == Range && IsEmpty(s)
  }

  /** RANGE mode, low end set and the high slot next: a later day fills the high end. */
  predicate IsSecondRangeSet(s: Selection, date: Date)
  {
    && s.mode == Range && s.current == CurrentIsHigh
    && s.low.Some? && s.high == None && Before(s.low.value, date)
  }

  class SelectedDate {
    const rules: UntestedRules
    var mode: SelectionMode
    var current: Slot
    var lowSnapshot: Option<Date>
    var highSnapshot: Option<Date>

    function State(): Selection
      reads this
    {
      Selection(mode, current, lowSnapshot, highSnapshot)
    }

    constructor (rules: UntestedRules)
      ensures this.rules == rules && mode == rules.defaultMode
      ensures current == CurrentIsLow && lowSnapshot == None && highSnapshot == None
    {
      this.rules := rules;
      mode := rules.defaultMode;
      current := CurrentIsLow;
      lowSnapshot := None;
      highSnapshot := None;
    }

    /** Assigning `mode`: on an empty selection the low slot stays next. */
    method SetMode(newMode: SelectionMode)
      modifies this
      ensures mode == newMode
      ensures IsEmpty(old(State())) ==> IsEmpty(State())
      ensures !IsEmpty(old(State())) ==> State() == rules.onMode(old(State()), newMode).(mode := newMode)
    {
      if !IsEmpty(State()) {
        var next := rules.onMode(State(), newMode);
        current, lowSnapshot, highSnapshot := next.current, next.low, next.high;
      }
      mode := newMode;
    }

    method Set(date: Date)
      modifies this
      ensures IsSingleSet(old(State())) ==>
        && mode == Single && lowSnapshot == Some(date) && highSnapshot == None
        && current == rules.onSet(old(State()), date).current
      ensures IsFirstRangeSet(old(State())) ==>
        mode == Range && current == CurrentIsHigh && lowSnapshot == Some(date) && highSnapshot == None
      ensures IsSecondRangeSet(old(State()), date) ==>
        && mode == Range && lowSnapshot == old(lowSnapshot) && highSnapshot == Some(date)
        && current == rules.onSet(old(State()), date).current
      ensures !IsSingleSet(old(State())) && !IsFirstRangeSet(old(State())) && !IsSecondRangeSet(old(State()), date) ==>
        State() == rules.onSet(old(State()), date)
    {
      var untested := rules.onSet(State(), date);
      if IsSingleSet(State()) {
        lowSnapshot, current := Some(date), untested.current;
      } else if IsFirstRangeSet(State()) {
        lowSnapshot, current := Some(date), CurrentIsHigh;
      } else if IsSecondRangeSet(State(), date) {
        highSnapshot, current := Some(date), untested.current;
      } else {
        mode, current, lowSnapshot, highSnapshot := untested.mode, untested.current, untested.low, untested.high;
      }
    }

    /** The selected day: the one day in SINGLE mode, nothing while a range is open, its low end once closed. */
    function Get(): (selected: Option<Date>)
      reads this
      ensures mode == Single && lowSnapshot.Some? && highSnapshot == None ==> selected == lowSnapshot
      ensures mode == Range && lowSnapshot.Some? && highSnapshot == None ==> selected == None
      ensures mode == Range && lowSnapshot.Some? && highSnapshot.Some? ==> selected == lowSnapshot
    {
      if mode == Single && lowSnapshot.Some? && highSnapshot == None then lowSnapshot
      else if mode == Range && lowSnapshot.Some? then (if highSnapshot == None then None else lowSnapshot)
      else rules.get(State())
    }

    /** The selected day as a calendar, represented by the day it denotes. */
    function GetCalendar(): (calendar: Option<Date>)
      reads this
      ensures mode == Single && lowSnapshot.Some? && highSnapshot == None ==> calendar == lowSnapshot
      ensures mode == Range && lowSnapshot.Some? && highSnapshot == None ==> calendar == None
      ensures mode == Range && lowSnapshot.Some? && highSnapshot.Some? ==> calendar == lowSnapshot
    {
      Get()
    }

    /** Both ends of a closed range; nothing in SINGLE mode. */
    function GetRange(): (range: Option<(Date, Date)>)
      reads this
      ensures mode == Single && lowSnapshot.Some? && highSnapshot == None ==> range == None
      ensures mode == Range && lowSnapshot.Some? && highSnapshot.Some? ==>
        range == Some((lowSnapshot.value, highSnapshot.value))
    {
      if mode == Single && lowSnapshot.Some? && highSnapshot == None then None
      else if mode == Range && lowSnapshot.Some? && highSnapshot.Some? then Some((lowSnapshot.value, highSnapshot.value))
      else rules.range(State())
    }

    function Observe(): Observation
      reads this
    {
      Observation(Get(), GetCalendar(), lowSnapshot, highSnapshot)
    }
  }

  /**
   * The test `single selection mode`, for any two days: each `set` replaces the selection and no
   * range ever appears.
   */
  method SingleSelectionMode(rules: UntestedRules, now: Date, another: Date)
    returns (currentAtStart: Slot, first: Observation, second: Observation, range: Option<(Date, Date)>)
    ensures currentAtStart == CurrentIsLow
    ensures first == Observation(Some(now), Some(now), Some(now), None)
    ensures second == Observation(Some(another), Some(another), Some(another), None)
    ensures range == None
  {
    var selectedDate := new SelectedDate(rules);
    selectedDate.SetMode(Single);
    currentAtStart := selectedDate.current;
    selectedDate.Set(now);
    first := selectedDate.Observe();
    selectedDate.Set(another);
    second := selectedDate.Observe();
    range := selectedDate.GetRange();
  }

  /**
   * The test `range selection mode`, for any day and any later day: the first `set` opens the
   * range (nothing is selected yet), the second closes it.
   */
  method RangeSelectionMode(rules: UntestedRules, now: Date, another: Date)
    returns (currentAtStart: Slot, first: Observation, second: Observation, range: Option<(Date, Date)>)
    requires Before(now, another)
    ensures currentAtStart == CurrentIsLow
    ensures first == Observation(None, None, Some(now), None)
    ensures second == Observation(Some(now), Some(now), Some(now), Some(another))
    ensures range == Some((now, another))
  {
    var selectedDate := new SelectedDate(rules);
    selectedDate.SetMode(Range);
    currentAtStart := selectedDate.current;
    selectedDate.Set(now);
    first := selectedDate.Observe();
    selectedDate.Set(another);
    second := selectedDate.Observe();
    range := selectedDate.GetRange();
  }
}
