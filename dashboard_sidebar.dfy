/**
 * The dashboard sidebar: the month calendar (its grid of blank and day
 * cells, month navigation and day clicks) and the two storm counters shown
 * above it.
 */
module DashboardSidebar {
  import opened Common
  import opened JsValues
  import opened StormData
  import opened CalendarDates

  /* ---------------------------------------------------------------------- */
  /* Storm counters                                                         */
  /* ---------------------------------------------------------------------- */

  /** `s.categoria || s.category || 0`. */
  function SeverityOf(r: StormRecord): int {
    if r.categoria != 0 then r.categoria else if r.category != 0 then r.category else 0
  }

  predicate IsSevere(r: StormRecord) {
    SeverityOf(r) >= 3
  }

  predicate IsWarning(r: StormRecord) {
    r.status == "warning" || r.estado == "warning"
  }

  /** `severeStorms`: how many storms have a category of 3 or more. */
  function SevereCount(storms: seq<StormRecord>): (n: nat)
    ensures n <= |storms|
    ensures n == 0 <==> forall k :: 0 <= k < |storms| ==> !IsSevere(storms[k])
  {
    if storms == [] then 0
    else SevereCount(storms[..|storms| - 1]) + (if IsSevere(storms[|storms| - 1]) then 1 else 0)
  }

  /** `warningStorms`: how many storms have status or estado "warning". */
  function WarningCount(storms: seq<StormRecord>): (n: nat)
    ensures n <= |storms|
    ensures n == 0 <==> forall k :: 0 <= k < |storms| ==> !IsWarning(storms[k])
  {
    if storms == [] then 0
    else WarningCount(storms[..|storms| - 1]) + (if IsWarning(storms[|storms| - 1]) then 1 else 0)
  }

  /** A qualifying raw entry whose most recent storm type is "HU". */
  predicate IsHurricaneEntry(v: Js) {
    Qualifies(v) && LastType(Get(v, "storm_type")) == Str("HU")
  }

  /** How many qualifying raw entries are hurricanes by their last storm type. */
  function HurricaneEntries(entries: seq<(string, Js)>): nat {
    if entries == [] then 0
    else HurricaneEntries(entries[..|entries| - 1]) + (if IsHurricaneEntry(entries[|entries| - 1].1) then 1 else 0)
  }

  /**
   * Over the records the normaliser produces, the severe count is the
   * number of qualifying entries whose last storm type is "HU": the
   * normaliser's categories are 1 to 3 and only "HU" gives 3.
   */
  lemma {:induction false} SevereCountOfProcessed(entries: seq<(string, Js)>, imageDate: Option<string>, now: int)
    requires NoNullValues(entries)
    ensures SevereCount(NormaliseAll(entries, imageDate, now)) == HurricaneEntries(entries)
  {
    if entries != [] {
      var init := entries[..|entries| - 1];
      var v := entries[|entries| - 1].1;
      assert NoNullValues(init) by {
        assert forall i :: 0 <= i < |init| ==> init[i] == entries[i];
      }
      SevereCountOfProcessed(init, imageDate, now);
      var prev := NormaliseAll(init, imageDate, now);
      if Qualifies(v) {
        var record := Normalise(v, imageDate, now);
        NormaliseFields(v, imageDate, now);
        assert (prev + [record])[..|prev|] == prev;
        assert IsSevere(record) <==> IsHurricaneEntry(v);
      }
    }
  }

  /** Records built by the normaliser are never warnings: their status is "watch" or "active". */
  lemma WarningCountOfProcessed(entries: seq<(string, Js)>, imageDate: Option<string>, now: int)
    requires NoNullValues(entries)
    ensures WarningCount(NormaliseAll(entries, imageDate, now)) == 0
  {
    var storms := NormaliseAll(entries, imageDate, now);
    NormaliseAllRecords(entries, imageDate, now);
    forall k | 0 <= k < |storms|
      ensures !IsWarning(storms[k])
    {
      assert storms[k] in storms;
    }
  }

  /* ---------------------------------------------------------------------- */
  /* The calendar grid                                                      */
  /* ---------------------------------------------------------------------- */

  /** A grid cell: an empty square before the 1st, or the button of a day. */
  datatype Cell = Blank | DayButton(day: int, selected: bool)

  predicate IsSelectedCell(c: Cell) {
    c.DayButton? && c.selected
  }

  /**
   * `isSelected`: the selected Date and the cell's Date print the same
   * `toDateString()`. An Invalid Date prints "Invalid Date", never the
   * text of a real day, and valid dates print the same text exactly when
   * they are the same day.
   */
  predicate Selects(selected: ParsedDate, current: Date) {
    selected.ParsedOk? && selected.date == current
  }

  /** `new Date(year, month, 1).getDay()`: the column of the 1st. */
  function FirstColumn(d: Date): (w: int)
    requires ValidDate(d)
    ensures 0 <= w < 7
  {
    Weekday(NewDate(d.year, d.month, 1))
  }

  /** `new Date(year, month + 1, 0).getDate()`: the number of day buttons. */
  function MonthLength(d: Date): (n: int)
    ensures 28 <= n <= 31
  {
    NewDate(d.year, d.month + 1, 0).day
  }

  /** The `days` array the calendar renders while displaying `display`. */
  function Grid(display: Option<Date>, selected: ParsedDate): seq<Cell>
    requires display.Some? ==> ValidDate(display.value)
  {
    if display.None? then [] else Layout(FirstColumn(display.value), MonthLength(display.value), display.value, selected)
  }

  /** `first` blanks followed by the buttons of days 1 to n of the month of d. */
  function Layout(first: nat, n: nat, d: Date, selected: ParsedDate): (cells: seq<Cell>)
    ensures |cells| == first + n
    ensures forall i :: 0 <= i < first ==> cells[i] == Blank
    ensures forall i :: first <= i < first + n ==> cells[i] == DayCell(d, selected, i - first + 1)
  {
    seq(first, _ => Blank) + seq(n, k => DayCell(d, selected, k + 1))
  }

  /** The button of `day` while displaying d. */
  function DayCell(d: Date, selected: ParsedDate, day: int): Cell {
    DayButton(day, Selects(selected, NewDate(d.year, d.month, day)))
  }

  /** The year the calendar shows for a displayed date: `new Date` maps 0 to 99 into the 1900s. */
  function ShownYear(d: Date): int {
    LegacyYear(d.year)
  }

  /**
   * The grid of a displayed month: the weekday of the 1st (Sunday = 0) in
   * blanks, then one button per day of the month numbered from 1, the
   * month's length following the Gregorian leap-year rule.
   */
  lemma GridLayout(d: Date, selected: ParsedDate)
    requires ValidDate(d)
    ensures var cells := Grid(Some(d), selected);
      var first := Weekday(Date(ShownYear(d), d.month, 1));
      var n := DaysInMonth(ShownYear(d), d.month);
      && 0 <= first < 7
      && |cells| == first + n
      && (forall i :: 0 <= i < first ==> cells[i] == Blank)
      && (forall i :: first <= i < |cells| ==> cells[i].DayButton? && cells[i].day == i - first + 1)
  {
    LastDayOfMonth(d.year, d.month);
    NewDateInMonth(d.year, d.month, 1);
  }

  /** The selected date lies in the month the grid shows. */
  predicate InShownMonth(selected: ParsedDate, d: Date) {
    selected.ParsedOk? && selected.date.year == ShownYear(d) && selected.date.month == d.month
  }

  /**
   * At most one day is marked selected, and one is exactly when the
   * selected date lies in the shown month: the button of its day.
   */
  lemma GridSelection(d: Date, selected: ParsedDate)
    requires ValidDate(d)
    requires selected.ParsedOk? ==> ValidDate(selected.date)
    ensures var cells := Grid(Some(d), selected);
      && (forall i, j :: 0 <= i < |cells| && 0 <= j < |cells| && IsSelectedCell(cells[i]) && IsSelectedCell(cells[j]) ==> i == j)
      && ((exists i :: 0 <= i < |cells| && IsSelectedCell(cells[i])) <==> InShownMonth(selected, d))
      && (InShownMonth(selected, d) ==>
            var i := FirstColumn(d) + selected.date.day - 1;
            0 <= i < |cells| && cells[i] == DayButton(selected.date.day, true))
  {
    var cells := Grid(Some(d), selected);
    var first := FirstColumn(d);
    var n := MonthLength(d);
    LastDayOfMonth(d.year, d.month);
    assert n == DaysInMonth(ShownYear(d), d.month);
    forall i | 0 <= i < |cells| && IsSelectedCell(cells[i])
      ensures first <= i && selected.ParsedOk? && selected.date == Date(ShownYear(d), d.month, i - first + 1)
    {
      if i >= first {
        assert cells[i] == DayCell(d, selected, i - first + 1);
        NewDateInMonth(d.year, d.month, i - first + 1);
      }
    }
    if InShownMonth(selected, d) {
      var k := selected.date.day - 1;
      NewDateInMonth(d.year, d.month, k + 1);
      assert cells[first + k] == DayButton(k + 1, true);
    }
  }

  /* ---------------------------------------------------------------------- */
  /* The calendar component                                                 */
  /* ---------------------------------------------------------------------- */

  /**
   * The first `displayDate`: the parsed active date when there is one
   * (an Invalid Date is a truthy object and is kept), today otherwise.
   * None stands for an Invalid Date.
   */
  function InitialDisplay(activeDate: Option<string>, today: Date): (r: Option<Date>)
    requires ValidDate(today)
    ensures r.Some? ==> ValidDate(r.value)
    ensures r.None? <==> ParseDateString(activeDate).InvalidDate?
    ensures ParseDateString(activeDate).NoDate? ==> r == Some(today)
    ensures ParseDateString(activeDate).ParsedOk? ==> r == Some(ParseDateString(activeDate).date)
  {
    match ParseDateString(activeDate)
    case NoDate => Some(today)
    case InvalidDate => None
    case ParsedOk(d) => Some(d)
  }

  /** `new Date(year, month - 1, 1)`; NaN fields keep an Invalid Date invalid. */
  function PrevDisplay(display: Option<Date>): (r: Option<Date>)
    ensures r.Some? ==> ValidDate(r.value)
    ensures display.None? ==> r.None?
    ensures display.Some? ==> r.Some?
  {
    if display.None? then None else Some(NewDate(display.value.year, display.value.month - 1, 1))
  }

  /** `new Date(year, month + 1, 1)`. */
  function NextDisplay(display: Option<Date>): (r: Option<Date>)
    ensures r.Some? ==> ValidDate(r.value)
    ensures display.None? ==> r.None?
    ensures display.Some? ==> r.Some?
  {
    if display.None? then None else Some(NewDate(display.value.year, display.value.month + 1, 1))
  }

  /** The previous-month button shows the 1st of the month before, rolling back over January. */
  lemma PrevDisplayMonth(d: Date)
    requires ValidDate(d)
    ensures var (py, pm) := PrevMonth(ShownYear(d), d.month);
      PrevDisplay(Some(d)) == Some(Date(py, pm, 1))
  {
    NewDatePrevMonth(d.year, d.month);
  }

  /** The next-month button shows the 1st of the month after, rolling over December. */
  lemma NextDisplayMonth(d: Date)
    requires ValidDate(d)
    ensures var (ny, nm) := NextMonth(ShownYear(d), d.month);
      NextDisplay(Some(d)) == Some(Date(ny, nm, 1))
  {
    NewDateNextMonth(d.year, d.month);
  }

  /**
   * Outside the years `new Date` remaps, next after previous, and
   * previous after next, come back to the 1st of the shown month.
   */
  lemma PrevNextRoundTrip(d: Date)
    requires ValidDate(d) && (d.year > 100 || d.year < -1)
    ensures NextDisplay(PrevDisplay(Some(d))) == Some(Date(d.year, d.month, 1))
    ensures PrevDisplay(NextDisplay(Some(d))) == Some(Date(d.year, d.month, 1))
  {
    PrevDisplayMonth(d);
    var (py, pm) := PrevMonth(d.year, d.month);
    NextDisplayMonth(Date(py, pm, 1));
    NextDisplayMonth(d);
    var (ny, nm) := NextMonth(d.year, d.month);
    PrevDisplayMonth(Date(ny, nm, 1));
  }

  /** A day button's click: the clicked Date and its YYYYMMDD string. */
  function ClickedDate(d: Date, day: int): Date {
    NewDate(d.year, d.month, day)
  }

  /**
   * Clicking a day in a shown year of four digits reports a string that,
   * once it comes back as the active date, selects exactly that button in
   * the grid the click moved to.
   */
  lemma ClickSelectsDay(d: Date, day: int)
    requires ValidDate(d) && 1000 <= d.year <= 9999 && 1 <= day <= MonthLength(d)
    ensures var clicked := ClickedDate(d, day);
      var cells := Grid(Some(clicked), ParseDateString(Some(FormatDateString(clicked))));
      var i := FirstColumn(clicked) + day - 1;
      0 <= i < |cells| && cells[i] == DayButton(day, true)
  {
    LastDayOfMonth(d.year, d.month);
    NewDateInMonth(d.year, d.month, day);
    var clicked := ClickedDate(d, day);
    ParseFormat(clicked);
    GridSelection(clicked, ParsedOk(clicked));
  }

  /**
   * The two `for` loops that fill `days`: `firstDay` blanks, then one
   * button per day of the month of d with its selection mark.
   */
  method FillDays(firstDay: nat, daysInMonth: nat, d: Date, selected: ParsedDate) returns (cells: seq<Cell>)
    ensures cells == Layout(firstDay, daysInMonth, d, selected)
  {
    cells := [];
    var i := 0;
    while i < firstDay
      invariant 0 <= i <= firstDay
      invariant |cells| == i
      invariant forall k :: 0 <= k < i ==> cells[k] == Blank
    {
      cells := cells + [Blank];
      i := i + 1;
    }
    var day := 1;
    while day <= daysInMonth
      invariant 1 <= day <= daysInMonth + 1
      invariant |cells| == firstDay + day - 1
      invariant forall k :: 0 <= k < firstDay ==> cells[k] == Blank
      invariant forall k :: firstDay <= k < |cells| ==> cells[k] == DayCell(d, selected, k - firstDay + 1)
    {
      var currentDate := NewDate(d.year, d.month, day);
      var isSelected := if selected.ParsedOk? then selected.date == currentDate else false;
      cells := cells + [DayButton(day, isSelected)];
      day := day + 1;
    }
    ghost var grid := Layout(firstDay, daysInMonth, d, selected);
    assert |cells| == |grid|;
    assert forall k :: 0 <= k < |cells| ==> cells[k] == grid[k];
  }

  /** The `Calendar` component with its `displayDate` state. */
  class Calendar {
    /** `displayDate`; None is an Invalid Date. */
    var display: Option<Date>

    ghost predicate Valid()
      reads this
    {
      display.Some? ==> ValidDate(display.value)
    }

    /** The first render: `useState(selectedDateObj || new Date())`, with today passed in. */
    constructor(activeDate: Option<string>, today: Date)
      requires ValidDate(today)
      ensures Valid() && display == InitialDisplay(activeDate, today)
    {
      display := InitialDisplay(activeDate, today);
    }

    /**
     * A render of the calendar: the grid of the displayed month with the
     * active date marked. An Invalid Date has NaN for both loop bounds, so
     * neither loop runs.
     */
    method Render(activeDate: Option<string>) returns (cells: seq<Cell>)
      requires Valid()
      ensures cells == Grid(display, ParseDateString(activeDate))
    {
      var selected := ParseDateString(activeDate);
      if display.None? {
        return [];
      }
      var d := display.value;
      var firstDay := Weekday(NewDate(d.year, d.month, 1));
      var daysInMonth := NewDate(d.year, d.month + 1, 0).day;
      cells := FillDays(firstDay, daysInMonth, d, selected);
    }

    /** The previous-month button. */
    method ShowPrevMonth()
      requires Valid()
      modifies this
      ensures Valid() && display == PrevDisplay(old(display))
    {
      if display.Some? {
        display := Some(NewDate(display.value.year, display.value.month - 1, 1));
      }
    }

    /** The next-month button. */
    method ShowNextMonth()
      requires Valid()
      modifies this
      ensures Valid() && display == NextDisplay(old(display))
    {
      if display.Some? {
        display := Some(NewDate(display.value.year, display.value.month + 1, 1));
      }
    }

    /**
     * The click of the button of `day`: reports `formatDateString` of that
     * day's Date to `onDateChange` and displays that Date.
     */
    method ClickDay(day: int) returns (newDateString: string)
      requires Valid() && display.Some? && 1 <= day <= MonthLength(display.value)
      modifies this
      ensures Valid()
      ensures display == Some(ClickedDate(old(display).value, day))
      ensures newDateString == FormatDateString(ClickedDate(old(display).value, day))
    {
      var currentDate := NewDate(display.value.year, display.value.month, day);
      newDateString := FormatDateString(currentDate);
      display := Some(currentDate);
    }
  }
}
