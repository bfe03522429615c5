/** Easter Sunday by the anonymous Gregorian algorithm, against the rule of the Gregorian calendar. */
module Easter {
  import opened CivilCalendar

  /** The algorithm's intermediate values for a year. */
  datatype Computus = Computus(a: int, b: int, c: int, d: int, e: int, f: int, g: int, h: int, i: int, k: int, l: int, m: int)

  function ComputusOf(year: int): Computus {
    var a := year % 19;
    var b := year / 100;
    var c := year % 100;
    var d := b / 4;
    var e := b % 4;
    var f := (b + 8) / 25;
    var g := (b - f + 1) / 3;
    var h := (19 * a + b - d - g + 15) % 30;
    var i := c / 4;
    var k := c % 4;
    var l := (32 + 2 * e + 2 * i - h - k) % 7;
    var m := (a + 11 * h + 22 * l) / 451;
    Computus(a, b, c, d, e, f, g, h, i, k, l, m)
  }

  function EasterMonth(year: int): int {
    var p := ComputusOf(year);
    (p.h + p.l - 7 * p.m + 114) / 31
  }

  function EasterDay(year: int): int {
    var p := ComputusOf(year);
    (p.h + p.l - 7 * p.m + 114) % 31 + 1
  }

  /** What the algorithm's result stands for: an offset from 22 March. */
  lemma EasterOffset(year: int)
    ensures var p := ComputusOf(year); var offset := p.h + p.l - 7 * p.m;
            && 0 <= offset <= 34
            && EasterMonth(year) == (if offset < 10 then 3 else 4)
            && EasterDay(year) == (if offset < 10 then 22 + offset else offset - 9)
  {
    var p := ComputusOf(year);
    assert 0 <= p.a <= 18 && 0 <= p.h <= 29 && 0 <= p.l <= 6;
    assert 0 <= p.m <= 1;
    assert p.h + p.l == 35 ==> p.m == 1;
    assert p.m == 1 ==> 11 * p.h + 22 * p.l >= 433;
  }

  function EasterSunday(year: int): int
    requires 1 <= EasterMonth(year) <= 12
  {
    DayNumber(year, EasterMonth(year), EasterDay(year))
  }

  function March(year: int, day: int): int { DayNumber(year, 3, day) }

  lemma EasterIsMarch(year: int)
    ensures 1 <= EasterMonth(year) <= 12
    ensures var p := ComputusOf(year); EasterSunday(year) == March(year, 22 + p.h + p.l - 7 * p.m)
  {
    EasterOffset(year);
    MonthTable(year);
  }

  /** Weekday of 22 March from the century and year parts. */
  lemma March22(year: int)
    ensures var p := ComputusOf(year); Weekday(March(year, 22)) == (3 + 5 * p.e + 5 * p.i + p.k) % 7
  {
    var p := ComputusOf(year);
    March22Number(year);
    Sevens(March(year, 22) + 4, 3 + 5 * p.e + 5 * p.i + p.k, 20871 * p.d + 5217 * p.e + 208 * p.i + 52 * p.k - 102778);
  }

  lemma Sevens(x: int, y: int, q: int)
    requires x == 7 * q + y
    ensures x % 7 == y % 7
  {
  }

  lemma March22Number(year: int)
    ensures var p := ComputusOf(year);
            March(year, 22) == 146097 * p.d + 36524 * p.e + 1461 * p.i + 365 * p.k - 719447
  {
    MonthTable(year);
    YearLength(year);
    DivisionParts(year);
    var (p, next) := (ComputusOf(year), Jan1(year + 1));
    assert March(year, 22) == next - 285;
    assert next == 365 * (year - 1969) + (year - 1968) / 4 - (year - 1900) / 100 + (year - 1600) / 400;
  }

  lemma DivisionParts(year: int)
    ensures var p := ComputusOf(year);
            && year == 400 * p.d + 100 * p.e + 4 * p.i + p.k
            && 0 <= p.e <= 3 && 0 <= p.i <= 24 && 0 <= p.k <= 3
            && (year - 1968) / 4 == 100 * p.d + 25 * p.e + p.i - 492
            && (year - 1900) / 100 == 4 * p.d + p.e - 19
            && (year - 1600) / 400 == p.d - 4
  {
  }

  /** The result is a Sunday from 22 March to 25 April. */
  lemma EasterIsSunday(year: int)
    ensures 1 <= EasterMonth(year) <= 12
    ensures Weekday(EasterSunday(year)) == 0
    ensures March(year, 22) <= EasterSunday(year) <= March(year, 56)
  {
    var p := ComputusOf(year);
    EasterOffset(year);
    EasterIsMarch(year);
    March22(year);
    var s := 32 + 2 * p.e + 2 * p.i - p.h - p.k;
    assert p.l == s % 7;
    SundayArithmetic(March(year, 22) + 4, p.e, p.i, p.k, p.h, p.l, p.m);
    assert EasterSunday(year) == March(year, 22) + p.h + p.l - 7 * p.m;
  }

  lemma SundayArithmetic(x: int, e: int, i: int, k: int, h: int, l: int, m: int)
    requires x % 7 == (3 + 5 * e + 5 * i + k) % 7 && l == (32 + 2 * e + 2 * i - h - k) % 7
    ensures (x + h + l - 7 * m) % 7 == 0
  {
    var q := x / 7 - (3 + 5 * e + 5 * i + k) / 7;
    assert x == 7 * q + 3 + 5 * e + 5 * i + k;
    var r := (32 + 2 * e + 2 * i - h - k) / 7;
    assert l == 32 + 2 * e + 2 * i - h - k - 7 * r;
    assert x + h + l - 7 * m == 7 * (q + 5 + e + i - r - m);
  }

  // ---------------------------------------------------------------------------
  // The calendar's own rule
  // ---------------------------------------------------------------------------

  /** Two epacts are moved by one, so that no two full moons of a cycle coincide. */
  function Adjusted(epact: int, golden: int): int {
    if (epact == 25 && golden > 11) || epact == 24 then epact + 1 else epact
  }

  /** The Gregorian epact: the lunar cycle's eleven days a year, with the solar and lunar corrections of the century. */
  function Epact(year: int): int {
    var golden := year % 19 + 1;
    var century := year / 100 + 1;
    var solar := 3 * century / 4 - 12;
    var lunar := (8 * century + 5) / 25 - 5;
    var plain := (11 * golden + 20 + lunar - solar) % 30;
    Adjusted(plain, golden)
  }

  /** The paschal full moon: the fourteenth day of the moon, on 21 March or later. */
  function FullMoon(year: int): int {
    var day := 44 - Epact(year);
    March(year, if day < 21 then day + 30 else day)
  }

  /** The algorithm's h counts from 21 March to the full moon, before the two exceptional epacts. */
  lemma MoonOffset(year: int)
    ensures var p := ComputusOf(year);
            FullMoon(year) == March(year, 21) + if p.h == 29 || (p.h == 28 && p.a > 10) then p.h - 1 else p.h
  {
    hide DaysBefore, Jan1;
    var p := ComputusOf(year);
    EpactOfH(year);
    MoonFromEpact(p.h, p.a);
  }

  /** The epact before adjustment, from the algorithm's values. */
  lemma EpactOfH(year: int)
    ensures var p := ComputusOf(year); Epact(year) == Adjusted((23 - p.h) % 30, p.a + 1)
  {
    var p := ComputusOf(year);
    LunarCorrection(p.b);
    SolarCorrection(p.b);
    var x := 19 * p.a + p.b - p.d - p.g + 15;
    var y := 11 * (p.a + 1) + 20 + ((8 * (p.b + 1) + 5) / 25 - 5) - (3 * (p.b + 1) / 4 - 12);
    Complement(y, x, p.a);
    assert p.h == x % 30;
    assert Epact(year) == Adjusted(y % 30, p.a + 1);
  }

  lemma MoonFromEpact(h: int, a: int)
    requires 0 <= h <= 29
    ensures var day := 44 - Adjusted((23 - h) % 30, a + 1);
            (if day < 21 then day + 30 else day) == 21 + if h == 29 || (h == 28 && a > 10) then h - 1 else h
  {
    assert (23 - h) % 30 == if h <= 23 then 23 - h else 53 - h;
  }

  lemma Complement(x: int, y: int, a: int)
    requires x + y == 30 * a + 53
    ensures x % 30 == (23 - y % 30) % 30
  {
    assert x == 30 * (a + 1 - y / 30) + 23 - y % 30;
  }

  lemma LunarCorrection(b: int)
    ensures (8 * (b + 1) + 5) / 25 == (b - (b + 8) / 25 + 1) / 3
  {
    var (p, q) := (b / 25, b % 25);
    assert b == 25 * p + q;
    var carry := if q >= 17 then 1 else 0;
    assert (b + 8) / 25 == p + carry;
    assert b - (b + 8) / 25 + 1 == 3 * (8 * p) + (q - carry + 1);
    assert 8 * (b + 1) + 5 == 25 * (8 * p) + (8 * q + 13);
    assert (8 * q + 13) / 25 == (q - carry + 1) / 3;
  }

  lemma SolarCorrection(b: int)
    ensures 3 * (b + 1) / 4 == b - b / 4
  {
  }

  /** Easter is the one Sunday in the week after the paschal full moon. */
  lemma EasterIsSundayAfterFullMoon(year: int, day: int)
    requires FullMoon(year) < day <= FullMoon(year) + 7
    ensures 1 <= EasterMonth(year) <= 12
    ensures Weekday(day) == 0 <==> day == EasterSunday(year)
  {
    EasterIsSunday(year);
    EasterIsMarch(year);
    MoonOffset(year);
    var p := ComputusOf(year);
    var easter := EasterSunday(year);
    assert FullMoon(year) < easter <= FullMoon(year) + 7 by { WithinWeek(p.a, p.h, p.l, p.m); }
    SameWeek(day, easter);
  }

  lemma WithinWeek(a: int, h: int, l: int, m: int)
    requires 0 <= a <= 18 && 0 <= h <= 29 && 0 <= l <= 6 && m == (a + 11 * h + 22 * l) / 451
    ensures var moon := if h == 29 || (h == 28 && a > 10) then h - 1 else h; moon <= h + l - 7 * m <= moon + 6
  {
    assert m == 0 || m == 1;
  }
}
