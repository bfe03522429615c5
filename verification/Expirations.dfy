/** The holiday cache, the searches for trading days, and the option expirations of an underlying. */
module Expirations {
  import opened CivilCalendar
  import opened Cycles
  import opened TradingDays

  const DAILY_COUNT := 5
  const WEEKLY_COUNT := 4
  const MONTHLY_COUNT := 3

  /** The last trading day up to a day. */
  function Preceding(day: int): (last: int)
    ensures IsTradingDay(last) && day - 3 <= last <= day
    ensures forall d :: last < d <= day ==> !IsTradingDay(d)
  {
    hide IsTradingDay;
    TradesWithinFour(day - 3, day - 2, day - 1, day);
    if IsTradingDay(day) then day
    else if IsTradingDay(day - 1) then day - 1
    else if IsTradingDay(day - 2) then day - 2
    else day - 3
  }

  /** The first trading day from a day on. */
  function Following(day: int): (first: int)
    ensures IsTradingDay(first) && day <= first <= day + 3
    ensures forall d :: day <= d < first ==> !IsTradingDay(d)
  {
    hide IsTradingDay;
    TradesWithinFour(day, day + 1, day + 2, day + 3);
    if IsTradingDay(day) then day
    else if IsTradingDay(day + 1) then day + 1
    else if IsTradingDay(day + 2) then day + 2
    else day + 3
  }

  lemma TradesWithinFour(a: int, b: int, c: int, d: int)
    requires b == a + 1 && c == a + 2 && d == a + 3
    ensures IsTradingDay(a) || IsTradingDay(b) || IsTradingDay(c) || IsTradingDay(d)
  {
    SomeTradingDay(a);
  }

  // ---------------------------------------------------------------------------
  // Weekly and monthly cycles
  // ---------------------------------------------------------------------------

  /** The expiration of a Friday, counted in weeks from Friday 2 January 1970. */
  function Weekly(week: int): int { Preceding(7 * week + 1) }

  ghost predicate IsWeekly(day: int) { Occurs(Weekly, day) }

  /** The third Friday of a month counted from year zero. */
  function MonthlyFriday(month: int): int { ThirdFriday(month / 12, month % 12 + 1) }

  function Monthly(month: int): int { Preceding(MonthlyFriday(month)) }

  ghost predicate IsMonthly(day: int) { Occurs(Monthly, day) }

  /** The weekly cycle runs over all Fridays. */
  lemma FridaysAreWeekly(friday: int)
    requires Weekday(friday) == 5
    ensures friday == 7 * (friday / 7) + 1
    ensures Weekday(friday + 7) == 5 && (friday + 7) / 7 == friday / 7 + 1
  {
  }

  lemma WeekliesAscend()
    ensures Ascends(Weekly)
  {
    hide IsTradingDay;
  }

  /** The first of a month counted from year zero. */
  function MonthStart(month: int): int { FirstOf(month / 12, month % 12 + 1) }

  lemma MonthSpan(month: int)
    ensures MonthStart(month) + 28 <= MonthStart(month + 1)
  {
    var (year, m) := (month / 12, month % 12 + 1);
    hide Jan1;
    MonthTable(year);
    MonthTable(year + 1);
    YearLength(year);
    assert if m < 12 then (month + 1) / 12 == year && (month + 1) % 12 + 1 == m + 1
           else (month + 1) / 12 == year + 1 && (month + 1) % 12 + 1 == 1;
  }

  lemma MonthlyFridayPlace(month: int)
    ensures MonthStart(month) + 14 <= MonthlyFriday(month) <= MonthStart(month) + 20
    ensures Weekday(MonthlyFriday(month)) == 5
  {
    ThirdFridayIsThird(month / 12, month % 12 + 1);
  }

  lemma {:induction false} MonthsAscend(a: int, b: int)
    requires a <= b
    ensures MonthStart(a) + 28 * (b - a) <= MonthStart(b)
    decreases b - a
  {
    if a < b {
      MonthsAscend(a, b - 1);
      MonthSpan(b - 1);
    }
  }

  lemma MonthlyAfter(a: int, b: int)
    requires a < b
    ensures Monthly(a) < Monthly(b)
  {
    hide IsTradingDay, MonthStart, MonthlyFriday;
    MonthsAscend(a, b);
    MonthlyFridayPlace(a);
    MonthlyFridayPlace(b);
  }

  /** Later months expire later. */
  lemma MonthliesAscend()
    ensures Ascends(Monthly)
  {
    hide Monthly;
    forall a: int, b: int | a < b ensures Monthly(a) < Monthly(b) { MonthlyAfter(a, b); }
  }

  /** The month a day lies in, counted from year zero. */
  function MonthIndex(day: int): (month: int)
    ensures MonthStart(month) <= day < MonthStart(month + 1)
  {
    var (year, m) := (YearOf(day), MonthOf(day));
    var month := 12 * year + m - 1;
    assert month / 12 == year && month % 12 + 1 == m;
    MonthEnds(month);
    month
  }

  lemma MonthEnds(month: int)
    ensures MonthStart(month + 1) == MonthStart(month) + MonthLength(month / 12, month % 12 + 1)
  {
    var (year, m) := (month / 12, month % 12 + 1);
    hide Jan1;
    MonthTable(year);
    MonthTable(year + 1);
    YearLength(year);
    assert if m < 12 then (month + 1) / 12 == year && (month + 1) % 12 + 1 == m + 1
           else (month + 1) / 12 == year + 1 && (month + 1) % 12 + 1 == 1;
  }

  /** The weekly search starts at the first Friday from today on; only that one may have been moved before today. */
  lemma WeeklyStart(friday: int, today: int)
    requires Weekday(friday) == 5 && today <= friday < today + 7
    ensures Between(IsWeekly, today, Weekly(friday / 7)) == {} && Weekly(friday / 7 + 1) >= today
  {
    hide IsTradingDay, Between, Occurs;
    FridaysAreWeekly(friday);
    WeekliesAscend();
    assert 7 * (friday / 7 - 1) + 1 < today;
    CycleStart(Weekly, friday / 7, IsWeekly, today);
  }

  /** So does the monthly search, from today's month on. */
  lemma MonthlyStart(today: int)
    ensures Between(IsMonthly, today, Monthly(MonthIndex(today))) == {} && Monthly(MonthIndex(today) + 1) >= today
  {
    hide IsTradingDay, Between, Occurs, MonthlyFriday, MonthStart;
    var month := MonthIndex(today);
    MonthliesAscend();
    MonthlyFridayPlace(month - 1);
    MonthSpan(month - 1);
    MonthlyFridayPlace(month + 1);
    CycleStart(Monthly, month, IsMonthly, today);
  }

  /** One of the next trading days where these are listed, of the next weekly or of the next monthly expirations. */
  ghost predicate Offered(day: int, daily: bool, today: int) {
    || (daily && AmongNext(day, 5, IsTradingDay, today))
    || AmongNext(day, 4, IsWeekly, today)
    || AmongNext(day, 3, IsMonthly, today)
  }

  lemma OfferedTrades(day: int, daily: bool, today: int)
    requires Offered(day, daily, today)
    ensures IsTradingDay(day) && today <= day
  {
    hide IsTradingDay, Between, MonthlyFriday;
  }

  // ---------------------------------------------------------------------------
  // The calendar object
  // ---------------------------------------------------------------------------

  class MarketCalendar {
    var holidayCache: map<int, set<int>>

    ghost predicate Valid()
      reads this
    {
      forall year :: year in holidayCache ==> holidayCache[year] == MarketHolidays(year)
    }

    constructor ()
      ensures Valid()
    {
      holidayCache := map[];
    }

    /** A year's holidays, computed once. */
    method Holidays(year: int) returns (days: set<int>)
      requires Valid()
      modifies this
      ensures Valid() && days == MarketHolidays(year)
    {
      hide NthWeekday, LastWeekday, GoodFriday, Observed, Weekday, DayNumber;
      if year in holidayCache { return holidayCache[year]; }
      days := {};
      var newYears := DayNumber(year, 1, 1);
      if Weekday(newYears) == 0 { days := days + {newYears + 1}; } else if Weekday(newYears) != 6 { days := days + {newYears}; }
      days := days + {NthWeekday(year, 1, 1, 3)};
      days := days + {NthWeekday(year, 2, 1, 3)};
      days := days + {GoodFriday(year)};
      days := days + {LastWeekday(year, 5, 1)};
      if year >= 2022 { days := days + {Observed(DayNumber(year, 6, 19))}; }
      days := days + {Observed(DayNumber(year, 7, 4))};
      days := days + {NthWeekday(year, 9, 1, 1)};
      days := days + {NthWeekday(year, 11, 4, 4)};
      days := days + {Observed(DayNumber(year, 12, 25))};
      assert days == MarketHolidays(year);
      holidayCache := holidayCache[year := days];
    }

    method TradesOn(day: int) returns (trades: bool)
      requires Valid()
      modifies this
      ensures Valid() && trades == IsTradingDay(day)
    {
      hide MarketHolidays, YearOf;
      if Weekday(day) == 0 || Weekday(day) == 6 { return false; }
      var holidays := Holidays(YearOf(day));
      trades := day !in holidays;
    }

    /** The last trading day strictly before a day. */
    method PreviousTradingDay(d: int) returns (day: int)
      requires Valid()
      modifies this
      ensures Valid() && day < d && IsTradingDay(day)
      ensures forall between :: day < between < d ==> !IsTradingDay(between)
    {
      day := PrecedingTradingDay(d - 1);
    }

    /** The last trading day up to a day; the search ends within three steps. */
    method PrecedingTradingDay(d: int) returns (day: int)
      requires Valid()
      modifies this
      ensures Valid() && day == Preceding(d)
    {
      hide IsTradingDay, Valid;
      day := d;
      var trades := TradesOn(day);
      while !trades
        invariant Valid() && trades == IsTradingDay(day) && Preceding(d) <= day <= d
        decreases day - Preceding(d)
      {
        day := day - 1;
        trades := TradesOn(day);
      }
    }

    /** The next trading days, for an underlying with an expiration every day. */
    method DailyExpirations(today: int) returns (out: set<int>)
      requires Valid()
      modifies this
      ensures Valid() && |out| == 5
      ensures forall d :: d in out <==> AmongNext(d, 5, IsTradingDay, today)
    {
      hide IsTradingDay, Valid, Preceding;
      out := {};
      var day := today;
      var added := 0;
      while added < DAILY_COUNT
        invariant Valid() && added == |out| <= DAILY_COUNT && today <= day
        invariant out == Between(IsTradingDay, today, day)
        decreases DAILY_COUNT - added, Following(day) - day
      {
        var trades := TradesOn(day);
        if trades {
          out := out + {day};
          added := added + 1;
        }
        day := day + 1;
      }
      Collected(out, IsTradingDay, today, day);
    }

    /** The next Fridays, each moved to the last trading day up to it. */
    method WeeklyExpirations(today: int) returns (out: set<int>)
      requires Valid()
      modifies this
      ensures Valid() && |out| == 4
      ensures forall d :: d in out <==> AmongNext(d, 4, IsWeekly, today)
    {
      hide Valid, IsTradingDay, AmongNext, Between, Ascends, Occurs, Preceding;
      out := {};
      var friday := today + (5 - Weekday(today) + 7) % 7;
      WeeklyStart(friday, today);
      FridaysAreWeekly(friday);
      WeekliesAscend();
      ghost var week := friday / 7;
      var weeklies := 0;
      while weeklies < WEEKLY_COUNT
        invariant Valid() && weeklies == |out| <= WEEKLY_COUNT && friday == 7 * week + 1
        invariant out == Between(IsWeekly, today, Weekly(week)) && Weekly(week + 1) >= today
        decreases WEEKLY_COUNT - weeklies, if Weekly(week) < today then 1 else 0
      {
        CycleStep(Weekly, week, IsWeekly, today);
        CycleStep(Weekly, week + 1, IsWeekly, today);
        BoundIsOutside(IsWeekly, today, Weekly(week));
        var expiry := PrecedingTradingDay(friday);
        if expiry >= today {
          out := out + {expiry};
          weeklies := weeklies + 1;
        }
        friday, week := friday + 7, week + 1;
      }
      Collected(out, IsWeekly, today, Weekly(week));
    }

    /** The next months' third Fridays, each moved to the last trading day up to it. */
    method MonthlyExpirations(today: int) returns (out: set<int>)
      requires Valid()
      modifies this
      ensures Valid() && |out| == 3
      ensures forall d :: d in out <==> AmongNext(d, 3, IsMonthly, today)
    {
      hide Valid, IsTradingDay, AmongNext, Between, Ascends, Occurs, Preceding, ThirdFriday, MonthStart;
      out := {};
      var year, month := YearOf(today), MonthOf(today);
      MonthlyStart(today);
      MonthliesAscend();
      ghost var index := 12 * year + month - 1;
      var monthlies := 0;
      while monthlies < MONTHLY_COUNT
        invariant Valid() && monthlies == |out| <= MONTHLY_COUNT
        invariant 1 <= month <= 12 && index == 12 * year + month - 1
        invariant out == Between(IsMonthly, today, Monthly(index)) && Monthly(index + 1) >= today
        decreases MONTHLY_COUNT - monthlies, if Monthly(index) < today then 1 else 0
      {
        IndexParts(year, month, index);
        CycleStep(Monthly, index, IsMonthly, today);
        CycleStep(Monthly, index + 1, IsMonthly, today);
        BoundIsOutside(IsMonthly, today, Monthly(index));
        var expiry := PrecedingTradingDay(ThirdFriday(year, month));
        if expiry >= today {
          out := out + {expiry};
          monthlies := monthlies + 1;
        }
        index := index + 1;
        month := month + 1;
        if month > 12 {
          month := 1;
          year := year + 1;
        }
      }
      Collected(out, IsMonthly, today, Monthly(index));
    }

    /** All expirations of an underlying from today on, in ascending order and without repeats. */
    method OptionExpirations(daily: bool, today: int) returns (out: seq<int>)
      requires Valid()
      modifies this
      ensures Valid()
      ensures forall i, j :: 0 <= i < j < |out| ==> out[i] < out[j]
      ensures forall i :: 0 <= i < |out| ==> IsTradingDay(out[i]) && today <= out[i]
      ensures forall d :: d in out <==> Offered(d, daily, today)
    {
      hide Valid, IsTradingDay, AmongNext, IsWeekly, IsMonthly;
      var days := {};
      if daily { days := DailyExpirations(today); }
      var weeklies := WeeklyExpirations(today);
      var monthlies := MonthlyExpirations(today);
      out := Ascending(days + weeklies + monthlies);
      forall i | 0 <= i < |out| ensures IsTradingDay(out[i]) && today <= out[i] {
        assert out[i] in out;
        OfferedTrades(out[i], daily, today);
      }
    }
  }

  lemma BoundIsOutside(has: int -> bool, today: int, bound: int)
    ensures bound !in Between(has, today, bound)
  {
  }

  lemma IndexParts(year: int, month: int, index: int)
    requires 1 <= month <= 12 && index == 12 * year + month - 1
    ensures index / 12 == year && index % 12 + 1 == month
  {
  }
}
