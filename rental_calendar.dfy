/**
 * The rental calendar: a month grid of day cells, each listing the rentals
 * that cover it, with month navigation and a selected day.
 */
module RentalCalendar {
  import opened Wrappers
  import opened Seqs
  import opened Dates
  import opened Records

  /** A local calendar date as a `Date` holds it: year, month 1..12, day of month. */
  datatype CivilDate = CivilDate(year: int, month: int, day: int)

  predicate ValidDate(c: CivilDate) {
    IsMonth(c.month) && 1 <= c.day <= DaysInMonth(c.year, c.month)
  }

  function DayOf(c: CivilDate): Day
    requires IsMonth(c.month)
  {
    FromCivil(c.year, c.month, c.day)
  }

  /** `daysInMonth`: day 0 of the next month, i.e. the last day of this one. */
  function MonthLength(y: int, m: int): (n: int)
    requires IsMonth(m)
    ensures n == DaysInMonth(y, m)
  {
    DaysInMonth(y, m)
  }

  /** The month's length is its last day: the day after it is the 1st of the next month. */
  lemma MonthLengthIsLastDay(y: int, m: int)
    requires IsMonth(m)
    ensures 28 <= MonthLength(y, m) <= 31
    ensures FromCivil(y, m, MonthLength(y, m)) + 1 == FromCivil(NextMonth(y, m).0, NextMonth(y, m).1, 1)
  {
    MonthEndMeetsNextStart(y, m);
  }

  /** `firstDayOfMonth`: the weekday of the 1st, Sunday being 0. */
  function FirstDayOfMonth(y: int, m: int): (w: int)
    requires IsMonth(m)
    ensures 0 <= w < 7
  {
    Weekday(FromCivil(y, m, 1))
  }

  /** The weekday numbering: 1 January 1970 was a Thursday, 1 September 2024 a Sunday. */
  lemma KnownWeekdays()
    ensures Weekday(FromCivil(1970, 1, 1)) == 4
    ensures FirstDayOfMonth(2024, 9) == 0
    ensures FirstDayOfMonth(2000, 1) == 6
  {
  }

  /** `checkDate >= startDate && checkDate <= endDate`. */
  function Covers(d: Day): Rental -> bool {
    (r: Rental) => r.startDate <= d <= r.endDate
  }

  /** `getRentalsForDate`: the rentals of any status whose span holds the day, both ends included. */
  function RentalsForDate(rentals: seq<Rental>, d: Day): (r: seq<Rental>)
    ensures |r| <= |rentals|
    ensures forall i :: 0 <= i < |r| ==> r[i] in rentals && r[i].startDate <= d <= r[i].endDate
    ensures forall i :: 0 <= i < |rentals| && rentals[i].startDate <= d <= rentals[i].endDate ==> rentals[i] in r
  {
    Filter(rentals, Covers(d))
  }

  lemma RentalsForDateInOrder(rentals: seq<Rental>, d: Day)
    ensures Subsequence(RentalsForDate(rentals, d), rentals)
  {
    FilterIsSubsequence(rentals, Covers(d));
  }

  /** The panel under the grid: the selected day's rentals, or nothing without a selection. */
  function SelectedDateRentals(rentals: seq<Rental>, selected: Option<Day>): (r: Option<seq<Rental>>)
    ensures r.Some? <==> selected.Some?
    ensures r.Some? ==> r.value == RentalsForDate(rentals, selected.value)
  {
    match selected
    case None => None
    case Some(d) => Some(RentalsForDate(rentals, d))
  }

  // ---------------------------------------------------------------------------
  // The month grid

  /**
   * A grid cell. A day cell holds its day, date, how many rentals cover it, the
   * first two of them, the "+k more" count (0 when hidden), and whether it is
   * today or the selected day.
   */
  datatype Cell =
    | Blank
    | DayCell(day: int, date: Day, count: nat, shown: seq<Rental>, more: nat, isToday: bool, isSelected: bool)

  function DayCellFor(rentals: seq<Rental>, y: int, m: int, day: int, today: Day, selected: Option<Day>): (c: Cell)
    requires IsMonth(m)
    ensures c.DayCell? && c.day == day
  {
    var date := FromCivil(y, m, day);
    var here := RentalsForDate(rentals, date);
    var shown := Take(here, 2);
    DayCell(day, date, |here|, shown, |here| - |shown|, date == today, selected == Some(date))
  }

  /**
   * A day cell counts the rentals covering its date, lists the first two of
   * them in order, shows "+k more" for the rest, and marks today and the selection.
   */
  lemma DayCellContents(rentals: seq<Rental>, y: int, m: int, day: int, today: Day, selected: Option<Day>)
    requires IsMonth(m)
    ensures var c := DayCellFor(rentals, y, m, day, today, selected);
      && c.date == FromCivil(y, m, day)
      && c.count == |RentalsForDate(rentals, c.date)|
      && |c.shown| == (if c.count < 2 then c.count else 2)
      && (forall i :: 0 <= i < |c.shown| ==> c.shown[i] == RentalsForDate(rentals, c.date)[i])
      && c.count == |c.shown| + c.more && (c.more > 0 <==> c.count > 2)
      && (c.isToday <==> c.date == today)
      && (c.isSelected <==> selected == Some(c.date))
  {
    TakeIsPrefix(RentalsForDate(rentals, FromCivil(y, m, day)), 2);
  }

  /** The cell maker the day loop applies to days 1..length. */
  function DayCellMaker(rentals: seq<Rental>, y: int, m: int, today: Day, selected: Option<Day>): int -> Cell
    requires IsMonth(m)
  {
    (day: int) => DayCellFor(rentals, y, m, day, today, selected)
  }

  /** `n` empty cells. */
  function Blanks(n: nat): (r: seq<Cell>)
    ensures |r| == n
  {
    if n == 0 then [] else Blanks(n - 1) + [Blank]
  }

  /**
   * The grid of a month drawn after `first` blanks, then days 1..length;
   * the calendar passes the weekday of the 1st as `first`.
   */
  function Grid(rentals: seq<Rental>, y: int, m: int, first: nat, today: Day, selected: Option<Day>): (g: seq<Cell>)
    requires IsMonth(m)
    ensures |g| == first + DaysInMonth(y, m)
  {
    Blanks(first) + Tabulate(DayCellMaker(rentals, y, m, today, selected), DaysInMonth(y, m))
  }

  lemma {:induction false} BlanksAreBlank(n: nat)
    ensures forall i :: 0 <= i < n ==> Blanks(n)[i] == Blank
  {
    if n > 0 {
      BlanksAreBlank(n - 1);
    }
  }

  /** The maker's cell for a day is that day's cell. */
  lemma MakerAt(rentals: seq<Rental>, y: int, m: int, today: Day, selected: Option<Day>, day: int)
    requires IsMonth(m)
    ensures DayCellMaker(rentals, y, m, today, selected)(day) == DayCellFor(rentals, y, m, day, today, selected)
  {
  }

  /** `first` blanks followed by a tabulation: blanks below `first`, then `make(1)`, `make(2)`, ... */
  lemma PaddedLayout(first: nat, n: nat, make: int -> Cell)
    ensures forall i :: 0 <= i < first ==> (Blanks(first) + Tabulate(make, n))[i] == Blank
    ensures forall i :: first <= i < first + n ==> (Blanks(first) + Tabulate(make, n))[i] == make(i - first + 1)
  {
    BlanksAreBlank(first);
    PaddedTabulateAt(Blanks(first), make, n);
  }

  /**
   * The layout: `first` blanks, then one cell per day 1..length in ascending
   * order, the cell of day `d` being the one `MakerAt` describes.
   */
  lemma GridLayout(rentals: seq<Rental>, y: int, m: int, first: nat, today: Day, selected: Option<Day>)
    requires IsMonth(m)
    ensures forall i :: 0 <= i < first ==> Grid(rentals, y, m, first, today, selected)[i] == Blank
    ensures forall i :: first <= i < first + DaysInMonth(y, m) ==>
      Grid(rentals, y, m, first, today, selected)[i] == DayCellMaker(rentals, y, m, today, selected)(i - first + 1)
  {
    PaddedLayout(first, DaysInMonth(y, m), DayCellMaker(rentals, y, m, today, selected));
  }

  /**
   * The two loops of `renderCalendarGrid`: push `first` blanks, then the cell
   * `make(day)` for each day from 1 to `total`.
   */
  method PushCells(first: nat, total: nat, make: int -> Cell) returns (cells: seq<Cell>)
    ensures cells == Blanks(first) + Tabulate(make, total)
  {
    cells := [];
    var i := 0;
    while i < first
      invariant 0 <= i <= first
      invariant cells == Blanks(i)
    {
      cells := cells + [Blank];
      i := i + 1;
    }
    ghost var blanks := cells;
    var day := 1;
    while day <= total
      invariant 1 <= day <= total + 1
      invariant cells == blanks + Tabulate(make, day - 1)
    {
      var cell := make(day);
      cells := cells + [cell];
      day := day + 1;
    }
  }

  /** `renderCalendarGrid`: the weekday offset in blanks, then one cell per day of the month. */
  method RenderGrid(rentals: seq<Rental>, current: CivilDate, today: Day, selected: Option<Day>) returns (cells: seq<Cell>)
    requires IsMonth(current.month)
    ensures cells == Grid(rentals, current.year, current.month, FirstDayOfMonth(current.year, current.month), today, selected)
  {
    var y, m := current.year, current.month;
    var totalDays := MonthLength(y, m);
    var firstDay := FirstDayOfMonth(y, m);
    cells := PushCells(firstDay, totalDays, DayCellMaker(rentals, y, m, today, selected));
  }

  // ---------------------------------------------------------------------------
  // Month navigation

  /**
   * `new Date(y, m - 1, d)` for a day of month 1..31: a day past the month's end
   * runs on into the next month. The result is the same day, as a valid date.
   */
  function Normalize(y: int, m: int, d: int): (r: CivilDate)
    requires IsMonth(m) && 1 <= d <= 31
    ensures ValidDate(r) && DayOf(r) == FromCivil(y, m, d)
  {
    if d <= DaysInMonth(y, m) then CivilDate(y, m, d)
    else
      var next := NextMonth(y, m);
      MonthEndMeetsNextStart(y, m);
      CivilDate(next.0, next.1, d - DaysInMonth(y, m))
  }

  /** The month an arrow moves to: the next one forward, the previous one back. */
  function Target(c: CivilDate, forward: bool): (r: (int, int))
    requires IsMonth(c.month)
    ensures IsMonth(r.1) && MonthIndex(r.0, r.1) == MonthIndex(c.year, c.month) + (if forward then 1 else -1)
  {
    if forward then NextMonth(c.year, c.month) else PrevMonth(c.year, c.month)
  }

  /**
   * The arrows as written: `setMonth(getMonth() ± 1)` keeps the day of month,
   * which overflows into the month after the target when the target is shorter.
   */
  function ShiftMonthAsWritten(c: CivilDate, forward: bool): (r: CivilDate)
    requires ValidDate(c)
    ensures ValidDate(r) && DayOf(r) == FromCivil(Target(c, forward).0, Target(c, forward).1, c.day)
  {
    var t := Target(c, forward);
    Normalize(t.0, t.1, c.day)
  }

  /** The arrows as intended: the target month, the day clamped to its length. */
  function ShiftMonth(c: CivilDate, forward: bool): (r: CivilDate)
    requires ValidDate(c)
    ensures ValidDate(r) && (r.year, r.month) == Target(c, forward)
    ensures r.day == (if c.day <= DaysInMonth(r.year, r.month) then c.day else DaysInMonth(r.year, r.month))
  {
    var t := Target(c, forward);
    var n := DaysInMonth(t.0, t.1);
    CivilDate(t.0, t.1, if c.day <= n then c.day else n)
  }

  /** When the day exists in the target month the two agree. */
  lemma ShiftAgreesWhenDayFits(c: CivilDate, forward: bool)
    requires ValidDate(c) && c.day <= DaysInMonth(Target(c, forward).0, Target(c, forward).1)
    ensures ShiftMonthAsWritten(c, forward) == ShiftMonth(c, forward)
  {
  }

  /** Forward from 31 January 2024 the code as written lands on 2 March: February is skipped. */
  lemma NextFromJanuary31SkipsFebruary()
    ensures ShiftMonthAsWritten(CivilDate(2024, 1, 31), true) == CivilDate(2024, 3, 2)
    ensures ShiftMonth(CivilDate(2024, 1, 31), true) == CivilDate(2024, 2, 29)
  {
  }

  /** Back from 31 March 2024 the code as written lands on 2 March: the month does not change. */
  lemma PreviousFromMarch31StaysInMarch()
    ensures ShiftMonthAsWritten(CivilDate(2024, 3, 31), false) == CivilDate(2024, 3, 2)
    ensures ShiftMonth(CivilDate(2024, 3, 31), false) == CivilDate(2024, 2, 29)
  {
  }

  /** Forward then back returns to the same date whenever the day exists in every month. */
  lemma ShiftMonthRoundTrip(c: CivilDate)
    requires ValidDate(c) && c.day <= 28
    ensures ShiftMonth(ShiftMonth(c, true), false) == c
  {
  }

  class CalendarView {
    var current: CivilDate
    var selected: Option<Day>
    var viewMode: string

    ghost predicate Valid()
      reads this
    {
      ValidDate(current)
    }

    constructor (today: CivilDate)
      requires ValidDate(today)
      ensures current == today && selected.None? && viewMode == "month" && Valid()
    {
      current := today;
      selected := None;
      viewMode := "month";
    }

    /** The left arrow (with the month clamping of `ShiftMonth`). */
    method Previous()
      requires Valid()
      modifies this
      ensures current == ShiftMonth(old(current), false) && Valid()
      ensures selected == old(selected) && viewMode == old(viewMode)
    {
      current := ShiftMonth(current, false);
    }

    /** The right arrow. */
    method Next()
      requires Valid()
      modifies this
      ensures current == ShiftMonth(old(current), true) && Valid()
      ensures selected == old(selected) && viewMode == old(viewMode)
    {
      current := ShiftMonth(current, true);
    }

    /** The "Today" button. */
    method GoToToday(today: CivilDate)
      requires ValidDate(today)
      modifies this
      ensures current == today && Valid()
      ensures selected == old(selected) && viewMode == old(viewMode)
    {
      current := today;
    }

    /** The "Month" and "Week" buttons; the grid is drawn the same either way. */
    method SetViewMode(mode: string)
      modifies this
      ensures viewMode == mode && current == old(current) && selected == old(selected)
    {
      viewMode := mode;
    }

    /** A click on day `day` of the shown month selects that date. */
    method SelectDay(day: int)
      requires Valid() && 1 <= day <= DaysInMonth(current.year, current.month)
      modifies this
      ensures current == old(current) && viewMode == old(viewMode) && Valid()
      ensures selected == Some(FromCivil(current.year, current.month, day))
    {
      selected := Some(FromCivil(current.year, current.month, day));
    }
  }
}
