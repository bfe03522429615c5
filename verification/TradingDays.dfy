/** Full-day market holidays and trading days. */
module TradingDays {
  import opened CivilCalendar
  import opened Easter

  /** Saturday is observed on Friday, Sunday on Monday. */
  function Observed(day: int): int {
    if Weekday(day) == 6 then day - 1 else if Weekday(day) == 0 then day + 1 else day
  }

  function NewYears(year: int): set<int> {
    var day := DayNumber(year, 1, 1);
    if Weekday(day) == 0 then {day + 1} else if Weekday(day) != 6 then {day} else {}
  }

  function Juneteenth(year: int): set<int> {
    if year >= 2022 then {Observed(DayNumber(year, 6, 19))} else {}
  }

  function GoodFriday(year: int): int {
    EasterIsMarch(year);
    EasterSunday(year) - 2
  }

  lemma GoodFridayIsFriday(year: int)
    ensures Weekday(GoodFriday(year)) == 5 && March(year, 20) <= GoodFriday(year) <= March(year, 54)
  {
    hide EasterSunday, Easter.March;
    EasterIsSunday(year);
    TwoDaysBefore(EasterSunday(year));
    MarchDays(year);
  }

  lemma TwoDaysBefore(sunday: int)
    requires Weekday(sunday) == 0
    ensures Weekday(sunday - 2) == 5
  {
  }

  lemma MarchDays(year: int)
    ensures Easter.March(year, 20) == Easter.March(year, 22) - 2 && Easter.March(year, 54) == Easter.March(year, 56) - 2
  {
    hide DaysBefore, Jan1;
  }

  function MarketHolidays(year: int): set<int> {
    NewYears(year) + Juneteenth(year) +
    {NthWeekday(year, 1, 1, 3), NthWeekday(year, 2, 1, 3), GoodFriday(year), LastWeekday(year, 5, 1),
     Observed(DayNumber(year, 7, 4)), NthWeekday(year, 9, 1, 1), NthWeekday(year, 11, 4, 4), Observed(DayNumber(year, 12, 25))}
  }

  predicate IsTradingDay(day: int) {
    Weekday(day) != 0 && Weekday(day) != 6 && day !in MarketHolidays(YearOf(day))
  }

  // ---------------------------------------------------------------------------
  // No long closure
  // ---------------------------------------------------------------------------

  /** The ten windows the holidays fall into, as days after 1 January; the leap day shifts those after February. */
  predicate InWindow(year: int, day: int, window: nat) {
    var leap := if IsLeap(year) then 1 else 0;
    var d := day - Jan1(year);
    match window
    case 0 => 0 <= d <= 1
    case 1 => 14 <= d <= 20
    case 2 => 45 <= d <= 51
    case 3 => 78 + leap <= d <= 112 + leap
    case 4 => 144 + leap <= d <= 150 + leap
    case 5 => 168 + leap <= d <= 170 + leap
    case 6 => 183 + leap <= d <= 185 + leap
    case 7 => 243 + leap <= d <= 249 + leap
    case 8 => 325 + leap <= d <= 331 + leap
    case 9 => 357 + leap <= d <= 359 + leap
    case _ => false
  }

  /** The holiday of a window, where the year has one. */
  ghost predicate HolidayOf(year: int, day: int, window: nat) {
    match window
    case 0 => day in NewYears(year)
    case 1 => day == NthWeekday(year, 1, 1, 3)
    case 2 => day == NthWeekday(year, 2, 1, 3)
    case 3 => day == GoodFriday(year)
    case 4 => day == LastWeekday(year, 5, 1)
    case 5 => day in Juneteenth(year)
    case 6 => day == Observed(DayNumber(year, 7, 4))
    case 7 => day == NthWeekday(year, 9, 1, 1)
    case 8 => day == NthWeekday(year, 11, 4, 4)
    case 9 => day == Observed(DayNumber(year, 12, 25))
    case _ => false
  }

  lemma HolidayHasWindow(year: int, day: int) returns (window: nat)
    requires day in MarketHolidays(year)
    ensures HolidayOf(year, day, window)
  {
    window :=
      if day in NewYears(year) then 0
      else if day == NthWeekday(year, 1, 1, 3) then 1
      else if day == NthWeekday(year, 2, 1, 3) then 2
      else if day == GoodFriday(year) then 3
      else if day == LastWeekday(year, 5, 1) then 4
      else if day in Juneteenth(year) then 5
      else if day == Observed(DayNumber(year, 7, 4)) then 6
      else if day == NthWeekday(year, 9, 1, 1) then 7
      else if day == NthWeekday(year, 11, 4, 4) then 8
      else 9;
  }

  /** Each holiday lies in its window, so it lies in its own year. */
  lemma HolidayInWindow(year: int, day: int, window: nat)
    requires HolidayOf(year, day, window)
    ensures InWindow(year, day, window)
  {
    hide Weekday, NthWeekday, LastWeekday, DaysBefore, Jan1, EasterSunday;
    MonthTable(year);
    match window
    case 1 => NthWeekdayIsNth(year, 1, 1, 3);
    case 2 => NthWeekdayIsNth(year, 2, 1, 3);
    case 3 => EasterIsSunday(year);
    case 4 => LastWeekdayIsLast(year, 5, 1);
    case 7 => NthWeekdayIsNth(year, 9, 1, 1);
    case 8 => NthWeekdayIsNth(year, 11, 4, 4);
    case _ =>
  }

  lemma WindowsApart(year: int, a: int, v: nat, b: int, w: nat)
    requires InWindow(year, a, v) && InWindow(year, b, w) && v != w
    ensures a - b >= 12 || b - a >= 12
  {
  }

  lemma OneHolidayPerWindow(year: int, a: int, b: int, window: nat)
    requires HolidayOf(year, a, window) && HolidayOf(year, b, window)
    ensures a == b
  {
  }

  /** Two different holidays are at least six days apart, also across New Year. */
  lemma HolidaysApart(a: int, b: int)
    requires a in MarketHolidays(YearOf(a)) && b in MarketHolidays(YearOf(b)) && a < b
    ensures a + 6 <= b
  {
    hide HolidayOf, MarketHolidays, Jan1;
    var (y, z) := (YearOf(a), YearOf(b));
    var v := HolidayHasWindow(y, a);
    var w := HolidayHasWindow(z, b);
    HolidayInWindow(y, a, v);
    HolidayInWindow(z, b, w);
    if y == z {
      if v == w { OneHolidayPerWindow(y, a, b, v); } else { WindowsApart(y, a, v, b, w); }
    } else {
      YearLength(y);
      if z < y { YearsAscend(z + 1, y); } else { YearsAscend(y + 1, z); }
    }
  }

  /** No holiday falls on a weekend: each of them closes a day that would have traded. */
  lemma HolidayIsWeekday(year: int, day: int)
    requires day in MarketHolidays(year)
    ensures 1 <= Weekday(day) <= 5
  {
    hide MarketHolidays, Weekday, NthWeekday, LastWeekday, Observed, GoodFriday, DaysBefore, Jan1;
    var window := HolidayHasWindow(year, day);
    NthWeekdayIsNth(year, 1, 1, 3);
    NthWeekdayIsNth(year, 2, 1, 3);
    GoodFridayIsFriday(year);
    LastWeekdayIsLast(year, 5, 1);
    NthWeekdayIsNth(year, 9, 1, 1);
    NthWeekdayIsNth(year, 11, 4, 4);
    ObservedIsWeekday(DayNumber(year, 6, 19));
    ObservedIsWeekday(DayNumber(year, 7, 4));
    ObservedIsWeekday(DayNumber(year, 12, 25));
    if window == 0 { NewYearsIsWeekday(year, day); }
  }

  /** The observed day is the holiday itself on a weekday, and the nearest weekday otherwise. */
  lemma ObservedIsWeekday(day: int)
    ensures 1 <= Weekday(Observed(day)) <= 5 && -1 <= Observed(day) - day <= 1
    ensures 1 <= Weekday(day) <= 5 ==> Observed(day) == day
  {
  }

  lemma NewYearsIsWeekday(year: int, day: int)
    requires day in NewYears(year)
    ensures 1 <= Weekday(day) <= 5
  {
    hide DayNumber, Weekday;
    WeekdayAfter(DayNumber(year, 1, 1), 1);
  }

  predicate Closed(day: int) { day in MarketHolidays(YearOf(day)) }

  lemma NotBothClosed(a: int, b: int)
    requires a < b < a + 6
    ensures !(Closed(a) && Closed(b))
  {
    hide MarketHolidays, YearOf;
    if Closed(a) && Closed(b) { HolidaysApart(a, b); }
  }

  lemma TradingMeans(day: int)
    ensures IsTradingDay(day) <==> 1 <= Weekday(day) <= 5 && !Closed(day)
  {
    hide MarketHolidays, YearOf;
  }

  lemma WeekdayAfter(day: int, k: int)
    requires 0 <= k <= 6
    ensures Weekday(day + k) == if Weekday(day) + k < 7 then Weekday(day) + k else Weekday(day) + k - 7
  {
  }

  /** No four consecutive days are all without trading. */
  lemma SomeTradingDay(day: int)
    ensures IsTradingDay(day) || IsTradingDay(day + 1) || IsTradingDay(day + 2) || IsTradingDay(day + 3)
  {
    hide IsTradingDay, Closed, Weekday;
    NotBothClosed(day, day + 1);
    NotBothClosed(day, day + 2);
    NotBothClosed(day, day + 3);
    NotBothClosed(day + 1, day + 2);
    NotBothClosed(day + 1, day + 3);
    NotBothClosed(day + 2, day + 3);
    TradingMeans(day);
    TradingMeans(day + 1);
    TradingMeans(day + 2);
    TradingMeans(day + 3);
    WeekdayAfter(day, 1);
    WeekdayAfter(day, 2);
    WeekdayAfter(day, 3);
  }

  /** Three is not enough: every January has a weekend that ends with Martin Luther King Day. */
  lemma ThreeDayClosure(year: int)
    ensures var monday := NthWeekday(year, 1, 1, 3);
            YearOf(monday) == year && !IsTradingDay(monday - 2) && !IsTradingDay(monday - 1) && !IsTradingDay(monday)
  {
    hide NthWeekday, Jan1, IsTradingDay, YearOf, Weekday, MarketHolidays, DaysBefore;
    var monday := NthWeekday(year, 1, 1, 3);
    NthWeekdayIsNth(year, 1, 1, 3);
    MonthTable(year);
    YearLength(year);
    YearIsUnique(monday, year);
    KingDayIsHoliday(year);
    TradingMeans(monday);
    TradingMeans(monday - 1);
    TradingMeans(monday - 2);
    WeekdayAfter(monday - 2, 1);
    WeekdayAfter(monday - 2, 2);
  }

  lemma KingDayIsHoliday(year: int)
    ensures NthWeekday(year, 1, 1, 3) in MarketHolidays(year)
  {
    hide NthWeekday, GoodFriday, LastWeekday, Observed, NewYears, Juneteenth;
  }

  // ---------------------------------------------------------------------------
  // Which days are holidays
  // ---------------------------------------------------------------------------

  /** The day falls on a weekday of that number between two dates of one month. */
  predicate OnWeekday(year: int, month: int, weekday: int, from: int, to: int, day: int)
    requires 1 <= month <= 12
  {
    Weekday(day) == weekday && DayNumber(year, month, from) <= day <= DayNumber(year, month, to)
  }

  /** A fixed date kept on its weekday, on the Friday before when it is a Saturday, on the Monday after when it is a Sunday. */
  predicate KeptFor(date: int, day: int) {
    || (day == date && 1 <= Weekday(day) <= 5)
    || (day == date - 1 && Weekday(day) == 5)
    || (day == date + 1 && Weekday(day) == 1)
  }

  /** The exchange's rules, holiday by holiday; New Year's Day on a Saturday is not made up for. */
  predicate HolidayByRule(year: int, day: int) {
    || (day == DayNumber(year, 1, 1) && 1 <= Weekday(day) <= 5)
    || (day == DayNumber(year, 1, 2) && Weekday(day) == 1)
    || OnWeekday(year, 1, 1, 15, 21, day)
    || OnWeekday(year, 2, 1, 15, 21, day)
    || day == EasterSunday(year) - 2
    || OnWeekday(year, 5, 1, 25, 31, day)
    || (year >= 2022 && KeptFor(DayNumber(year, 6, 19), day))
    || KeptFor(DayNumber(year, 7, 4), day)
    || OnWeekday(year, 9, 1, 1, 7, day)
    || OnWeekday(year, 11, 4, 22, 28, day)
    || KeptFor(DayNumber(year, 12, 25), day)
  }

  lemma ObservedIsKept(date: int, day: int)
    ensures day == Observed(date) <==> KeptFor(date, day)
  {
  }

  lemma NthIsOnWeekday(year: int, month: int, weekday: int, n: int, day: int)
    requires 1 <= month <= 12 && 0 <= weekday <= 6
    ensures day == NthWeekday(year, month, weekday, n) <==> OnWeekday(year, month, weekday, 7 * n - 6, 7 * n, day)
  {
    hide NthWeekday, Weekday, DaysBefore, Jan1;
    NthWeekdayIsNth(year, month, weekday, n);
  }

  lemma LastIsOnWeekday(year: int, day: int)
    ensures day == LastWeekday(year, 5, 1) <==> OnWeekday(year, 5, 1, 25, 31, day)
  {
    hide LastWeekday, Jan1, DaysBefore;
    LastWeekdayIsLast(year, 5, 1);
    MonthTable(year);
    if OnWeekday(year, 5, 1, 25, 31, day) { SameWeek(day, LastWeekday(year, 5, 1)); }
  }

  lemma NewYearsByRule(year: int, day: int)
    ensures day in NewYears(year) <==>
            (day == DayNumber(year, 1, 1) && 1 <= Weekday(day) <= 5) || (day == DayNumber(year, 1, 2) && Weekday(day) == 1)
  {
    hide Jan1;
    var first := DayNumber(year, 1, 1);
    assert DayNumber(year, 1, 2) == first + 1;
    WeekdayAfter(first, 1);
  }

  /** The computed set is exactly what the rules say, in every year. */
  lemma HolidaysByRule(year: int, day: int)
    ensures day in MarketHolidays(year) <==> HolidayByRule(year, day)
  {
    hide NthWeekday, LastWeekday, Observed, NewYears, DayNumber, EasterSunday, OnWeekday, KeptFor;
    NewYearsByRule(year, day);
    NthIsOnWeekday(year, 1, 1, 3, day);
    NthIsOnWeekday(year, 2, 1, 3, day);
    LastIsOnWeekday(year, day);
    ObservedIsKept(DayNumber(year, 6, 19), day);
    ObservedIsKept(DayNumber(year, 7, 4), day);
    NthIsOnWeekday(year, 9, 1, 1, day);
    NthIsOnWeekday(year, 11, 4, 4, day);
    ObservedIsKept(DayNumber(year, 12, 25), day);
  }
}
