/** Gregorian dates as day numbers from 1 January 1970, and the weekdays of a month. */
module CivilCalendar {
  predicate IsLeap(year: int) {
    year % 4 == 0 && (year % 100 != 0 || year % 400 == 0)
  }

  /** Day number of 1 January. */
  function Jan1(year: int): int {
    365 * (year - 1970) + (year - 1969) / 4 - (year - 1901) / 100 + (year - 1601) / 400
  }

  function MonthLength(year: int, month: int): (days: int)
    ensures 28 <= days <= 31
  {
    if month == 2 then (if IsLeap(year) then 29 else 28)
    else if month == 4 || month == 6 || month == 9 || month == 11 then 30
    else 31
  }

  /** Days of the year before the first of a month. */
  function DaysBefore(year: int, month: int): int
    requires 1 <= month <= 12
  {
    if month == 1 then 0 else DaysBefore(year, month - 1) + MonthLength(year, month - 1)
  }

  function FirstOf(year: int, month: int): int
    requires 1 <= month <= 12
  {
    Jan1(year) + DaysBefore(year, month)
  }

  /** A date may run past its month, as in day 0 of the next one. */
  function DayNumber(year: int, month: int, day: int): int
    requires 1 <= month <= 12
  {
    FirstOf(year, month) + day - 1
  }

  /** 0 is Sunday, 6 is Saturday. */
  function Weekday(day: int): (weekday: int)
    ensures 0 <= weekday <= 6
  {
    (day + 4) % 7
  }

  lemma YearLength(year: int)
    ensures Jan1(year + 1) == Jan1(year) + if IsLeap(year) then 366 else 365
  {
    FourStep(year);
    CenturyStep(year);
    FourCenturyStep(year);
    Multiples(year);
    var (a, b, c) := ((year - 1969) / 4, (year - 1901) / 100, (year - 1601) / 400);
    assert Jan1(year) == 365 * (year - 1970) + a - b + c;
    assert Jan1(year + 1) == 365 * (year - 1969) + (year - 1968) / 4 - (year - 1900) / 100 + (year - 1600) / 400;
  }

  lemma Multiples(year: int)
    ensures year % 400 == 0 ==> year % 100 == 0
    ensures year % 100 == 0 ==> year % 4 == 0
  {
    if year % 400 == 0 { Hundreds(year, 4 * (year / 400)); }
    if year % 100 == 0 { Fours(year, 25 * (year / 100)); }
  }

  lemma Hundreds(x: int, q: int)
    requires x == 100 * q
    ensures x % 100 == 0
  {
  }

  lemma Fours(x: int, q: int)
    requires x == 4 * q
    ensures x % 4 == 0
  {
  }

  lemma FourStep(year: int)
    ensures (year - 1968) / 4 == (year - 1969) / 4 + if year % 4 == 0 then 1 else 0
  {
    var q := year / 4;
    assert year == 4 * q + year % 4;
  }

  lemma CenturyStep(year: int)
    ensures (year - 1900) / 100 == (year - 1901) / 100 + if year % 100 == 0 then 1 else 0
  {
    var q := year / 100;
    assert year == 100 * q + year % 100;
  }

  lemma FourCenturyStep(year: int)
    ensures (year - 1600) / 400 == (year - 1601) / 400 + if year % 400 == 0 then 1 else 0
  {
    var q := year / 400;
    assert year == 400 * q + year % 400;
  }

  /** The months fill the year. */
  lemma MonthTable(year: int)
    ensures var leap := if IsLeap(year) then 1 else 0;
            && DaysBefore(year, 1) == 0 && DaysBefore(year, 2) == 31 && DaysBefore(year, 3) == 59 + leap
            && DaysBefore(year, 4) == 90 + leap && DaysBefore(year, 5) == 120 + leap && DaysBefore(year, 6) == 151 + leap
            && DaysBefore(year, 7) == 181 + leap && DaysBefore(year, 8) == 212 + leap && DaysBefore(year, 9) == 243 + leap
            && DaysBefore(year, 10) == 273 + leap && DaysBefore(year, 11) == 304 + leap && DaysBefore(year, 12) == 334 + leap
  {
    assert DaysBefore(year, 4) == DaysBefore(year, 3) + 31;
    assert DaysBefore(year, 6) == DaysBefore(year, 5) + 31;
    assert DaysBefore(year, 8) == DaysBefore(year, 7) + 31;
    assert DaysBefore(year, 10) == DaysBefore(year, 9) + 30;
    assert DaysBefore(year, 12) == DaysBefore(year, 11) + 30;
  }

  /** The year a day lies in. */
  function YearOf(day: int): (year: int)
    ensures Jan1(year) <= day < Jan1(year + 1)
  {
    var guess := 1970 + 400 * day / 146097;
    GuessIsClose(day, guess);
    if day < Jan1(guess) then guess - 1 else if day >= Jan1(guess + 1) then guess + 1 else guess
  }

  lemma JanBounds(year: int)
    ensures 146097 * (year - 1970) - 800 <= 400 * Jan1(year) <= 146097 * (year - 1970) + 800
  {
    var y := year - 1970;
    assert (y + 1) - 3 <= 4 * ((y + 1) / 4) <= y + 1;
    assert (y + 69) - 99 <= 100 * ((y + 69) / 100) <= y + 69;
    assert (y + 369) - 399 <= 400 * ((y + 369) / 400) <= y + 369;
  }

  lemma GuessIsClose(day: int, guess: int)
    requires guess == 1970 + 400 * day / 146097
    ensures Jan1(guess - 1) <= day < Jan1(guess + 2)
  {
    JanBounds(guess - 1);
    JanBounds(guess + 2);
    assert 146097 * (guess - 1970) <= 400 * day < 146097 * (guess - 1970) + 146097;
  }

  lemma {:induction false} YearsAscend(a: int, b: int)
    requires a <= b
    ensures Jan1(a) + 365 * (b - a) <= Jan1(b)
    decreases b - a
  {
    if a < b {
      YearsAscend(a, b - 1);
      YearLength(b - 1);
    }
  }

  lemma YearIsUnique(day: int, year: int)
    requires Jan1(year) <= day < Jan1(year + 1)
    ensures YearOf(day) == year
  {
    if YearOf(day) < year { YearsAscend(YearOf(day) + 1, year); }
    if year < YearOf(day) { YearsAscend(year + 1, YearOf(day)); }
  }

  /** The month a day lies in. */
  function MonthOf(day: int): (month: int)
    ensures 1 <= month <= 12 && FirstOf(YearOf(day), month) <= day
    ensures day < FirstOf(YearOf(day), month) + MonthLength(YearOf(day), month)
  {
    MonthTable(YearOf(day));
    YearLength(YearOf(day));
    MonthFrom(day, 12)
  }

  /** The latest month up to a given one that has begun. */
  function MonthFrom(day: int, month: int): (found: int)
    requires 1 <= month <= 12 && Jan1(YearOf(day)) <= day
    requires month == 12 ==> day < FirstOf(YearOf(day), 12) + 31
    requires month < 12 ==> day < FirstOf(YearOf(day), month + 1)
    ensures 1 <= found <= month && FirstOf(YearOf(day), found) <= day
    ensures day < FirstOf(YearOf(day), found) + MonthLength(YearOf(day), found)
  {
    if FirstOf(YearOf(day), month) <= day then month else MonthFrom(day, month - 1)
  }

  // ---------------------------------------------------------------------------
  // Weekdays of a month
  // ---------------------------------------------------------------------------

  function NthWeekday(year: int, month: int, weekday: int, n: int): int
    requires 1 <= month <= 12
  {
    var offset := (weekday - Weekday(FirstOf(year, month)) + 7) % 7;
    DayNumber(year, month, 1 + offset + (n - 1) * 7)
  }

  function LastWeekday(year: int, month: int, weekday: int): int
    requires 1 <= month <= 11
  {
    var last := DayNumber(year, month + 1, 0);
    last - (Weekday(last) - weekday + 7) % 7
  }

  function ThirdFriday(year: int, month: int): int
    requires 1 <= month <= 12
  {
    var firstFriday := 1 + (5 - Weekday(FirstOf(year, month)) + 7) % 7;
    DayNumber(year, month, firstFriday + 14)
  }

  /** The nth such weekday: it lies in the month's nth run of seven days, and only it does. */
  lemma NthWeekdayIsNth(year: int, month: int, weekday: int, n: int)
    requires 1 <= month <= 12 && 0 <= weekday <= 6
    ensures Weekday(NthWeekday(year, month, weekday, n)) == weekday
    ensures forall day :: FirstOf(year, month) + 7 * (n - 1) <= day < FirstOf(year, month) + 7 * n ==>
              (Weekday(day) == weekday <==> day == NthWeekday(year, month, weekday, n))
    ensures FirstOf(year, month) + 7 * (n - 1) <= NthWeekday(year, month, weekday, n) < FirstOf(year, month) + 7 * n
  {
    var first := FirstOf(year, month);
    var nth := NthWeekday(year, month, weekday, n);
    var offset := (weekday - Weekday(first) + 7) % 7;
    assert nth == first + 7 * (n - 1) + offset;
    WeekdayShift(first, offset, weekday);
    WeeksLater(first + offset, n - 1);
    forall day | first + 7 * (n - 1) <= day < first + 7 * n
      ensures Weekday(day) == weekday <==> day == nth
    {
      SameWeek(day, nth);
    }
  }

  lemma WeekdayShift(day: int, offset: int, weekday: int)
    requires 0 <= weekday <= 6 && offset == (weekday - Weekday(day) + 7) % 7
    ensures Weekday(day + offset) == weekday
  {
  }

  lemma WeeksLater(day: int, weeks: int)
    ensures Weekday(day + 7 * weeks) == Weekday(day)
  {
    assert (day + 7 * weeks + 4) % 7 == (day + 4) % 7;
  }

  lemma SameWeek(a: int, b: int)
    requires -7 < a - b < 7
    ensures Weekday(a) == Weekday(b) <==> a == b
  {
  }

  /** The last such weekday: it is in the month's last seven days. */
  lemma LastWeekdayIsLast(year: int, month: int, weekday: int)
    requires 1 <= month <= 11 && 0 <= weekday <= 6
    ensures Weekday(LastWeekday(year, month, weekday)) == weekday
    ensures FirstOf(year, month + 1) - 7 <= LastWeekday(year, month, weekday) < FirstOf(year, month + 1)
  {
  }

  lemma ThirdFridayIsThird(year: int, month: int)
    requires 1 <= month <= 12
    ensures ThirdFriday(year, month) == NthWeekday(year, month, 5, 3)
    ensures Weekday(ThirdFriday(year, month)) == 5
    ensures FirstOf(year, month) + 14 <= ThirdFriday(year, month) <= FirstOf(year, month) + 20
  {
    NthWeekdayIsNth(year, month, 5, 3);
  }
}
