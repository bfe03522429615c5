/** OCC option symbols: the printer, the parser, and how far they undo each other. Strikes are exact. */
module OccSymbols {
  import opened Wrappers

  datatype OptionType = Call | Put

  datatype Occ = Occ(underlying: string, expiration: string, optionType: OptionType, strike: real)

  // ---------------------------------------------------------------------------
  // Decimal numerals
  // ---------------------------------------------------------------------------

  predicate IsDigit(c: char) { '0' <= c <= '9' }

  predicate AllDigits(s: string) { forall i :: 0 <= i < |s| ==> IsDigit(s[i]) }

  function DigitOf(n: nat): (c: char)
    requires n < 10
    ensures IsDigit(c) && ValueOf(c) == n
  {
    '0' + n as char
  }

  function ValueOf(c: char): (n: nat)
    requires IsDigit(c)
    ensures n < 10
  {
    c as nat - '0' as nat
  }

  function Decimal(n: nat): (s: string)
    ensures |s| > 0 && AllDigits(s)
  {
    if n < 10 then [DigitOf(n)] else Decimal(n / 10) + [DigitOf(n % 10)]
  }

  function Value(s: string): nat
    requires AllDigits(s)
  {
    if s == [] then 0 else Value(s[..|s| - 1]) * 10 + ValueOf(s[|s| - 1])
  }

  function Zeros(n: nat): (s: string)
    ensures |s| == n && forall i :: 0 <= i < n ==> s[i] == '0'
  {
    seq(n, i => '0')
  }

  function PadStart(s: string, width: nat): string {
    if |s| >= width then s else Zeros(width - |s|) + s
  }

  lemma {:induction false} DecimalValue(n: nat)
    ensures Value(Decimal(n)) == n
  {
    if n >= 10 {
      DecimalValue(n / 10);
      assert Decimal(n)[..|Decimal(n)| - 1] == Decimal(n / 10);
    }
  }

  lemma {:induction false} PaddingKeepsValue(zeros: nat, s: string)
    requires AllDigits(s)
    ensures AllDigits(Zeros(zeros) + s) && Value(Zeros(zeros) + s) == Value(s)
  {
    var padded := Zeros(zeros) + s;
    if s != [] {
      PaddingKeepsValue(zeros, s[..|s| - 1]);
      assert padded[..|padded| - 1] == Zeros(zeros) + s[..|s| - 1];
    } else if zeros > 0 {
      PaddingKeepsValue(zeros - 1, []);
      assert Zeros(zeros - 1) + [] == Zeros(zeros - 1);
      assert padded[..|padded| - 1] == Zeros(zeros - 1);
    }
  }

  function PowerOfTen(n: nat): nat {
    if n == 0 then 1 else 10 * PowerOfTen(n - 1)
  }

  lemma {:induction false} DecimalLength(n: nat, width: nat)
    requires width > 0
    ensures |Decimal(n)| <= width <==> n < PowerOfTen(width)
  {
    if n < 10 {
      TenAtLeast(width);
    } else if width > 1 {
      DecimalLength(n / 10, width - 1);
      assert n / 10 < PowerOfTen(width - 1) <==> n < 10 * PowerOfTen(width - 1);
    }
  }

  lemma {:induction false} TenAtLeast(width: nat)
    requires width > 0
    ensures PowerOfTen(width) >= 10
  {
    if width > 1 { TenAtLeast(width - 1); }
  }

  /** A numeral of fixed width is the padded numeral of its value. */
  lemma {:induction false} FixedWidth(s: string)
    requires AllDigits(s) && |s| > 0
    ensures PadStart(Decimal(Value(s)), |s|) == s
  {
    var (front, c) := (s[..|s| - 1], s[|s| - 1]);
    if front == [] {
      assert Value(front) == 0 && Decimal(Value(s)) == [c];
    } else {
      FixedWidth(front);
      var shorter := Decimal(Value(front));
      assert s == front + [c];
      if Value(front) == 0 {
        assert Decimal(Value(s)) == [c];
        assert shorter == "0";
        assert front == Zeros(|front|);
        assert Zeros(|front|) + [c] == s;
      } else {
        assert Value(s) / 10 == Value(front) && Value(s) % 10 == ValueOf(c);
        assert Decimal(Value(s)) == shorter + [c];
        assert |shorter| <= |front|;
        assert Zeros(|front| - |shorter|) + (shorter + [c]) == (Zeros(|front| - |shorter|) + shorter) + [c];
        assert |shorter| == |front| ==> Zeros(0) + shorter == shorter;
      }
    }
  }

  // ---------------------------------------------------------------------------
  // Printing
  // ---------------------------------------------------------------------------

  /** The parts of a text between dashes. */
  function Fields(s: string): (fields: seq<string>)
    ensures |fields| > 0
  {
    if s == [] then [""]
    else if s[0] == '-' then [""] + Fields(s[1..])
    else
      var rest := Fields(s[1..]);
      [[s[0]] + rest[0]] + rest[1..]
  }

  /** A missing field prints as a word. */
  function FieldText(fields: seq<string>, i: nat): string {
    if i < |fields| then fields[i] else "undefined"
  }

  function UpperChar(c: char): char {
    if 'a' <= c <= 'z' then c - 'a' + 'A' else c
  }

  function Upper(s: string): (u: string)
    ensures |u| == |s| && forall i :: 0 <= i < |s| ==> u[i] == UpperChar(s[i])
  {
    seq(|s|, i requires 0 <= i < |s| => UpperChar(s[i]))
  }

  /** Halves round up. */
  function Round(x: real): int { (x + 0.5).Floor }

  function Integer(n: int): string {
    if n < 0 then "-" + Decimal(-n) else Decimal(n)
  }

  function FormatOccSymbol(underlying: string, expiration: string, optionType: OptionType, strike: real): string {
    var fields := Fields(expiration);
    var y := FieldText(fields, 0);
    Upper(underlying)
    + (if |y| <= 2 then "" else y[2..]) + FieldText(fields, 1) + FieldText(fields, 2)
    + (if optionType.Call? then "C" else "P")
    + PadStart(Integer(Round(strike * 1000.0)), 8)
  }

  // ---------------------------------------------------------------------------
  // Parsing
  // ---------------------------------------------------------------------------

  predicate IsRootChar(c: char) { 'A' <= c <= 'Z' || c == '.' }

  predicate IsRoot(s: string) {
    1 <= |s| <= 6 && forall i :: 0 <= i < |s| ==> IsRootChar(s[i])
  }

  /** One to six root characters, six digits, C or P, eight digits, and nothing else. */
  predicate Matches(s: string) {
    && 16 <= |s| <= 21
    && IsRoot(s[..|s| - 15])
    && AllDigits(s[|s| - 15..|s| - 9])
    && (s[|s| - 9] == 'C' || s[|s| - 9] == 'P')
    && AllDigits(s[|s| - 8..])
  }

  function ParseOccSymbol(s: string): Option<Occ> {
    if !Matches(s) then None
    else
      var n := |s|;
      var ymd := s[n - 15..n - 9];
      Some(Occ(s[..n - 15], Dated(ymd), if s[n - 9] == 'C' then Call else Put, Value(s[n - 8..]) as real / 1000.0))
  }

  function Dated(ymd: string): string
    requires |ymd| == 6
  {
    "20" + ymd[..2] + "-" + ymd[2..4] + "-" + ymd[4..]
  }

  // ---------------------------------------------------------------------------
  // Both round trips
  // ---------------------------------------------------------------------------

  /** A date of this century written as the parser writes it. */
  predicate IsDate(s: string) {
    && |s| == 10 && s[0] == '2' && s[1] == '0' && s[4] == '-' && s[7] == '-'
    && IsDigit(s[2]) && IsDigit(s[3]) && IsDigit(s[5]) && IsDigit(s[6]) && IsDigit(s[8]) && IsDigit(s[9])
  }

  /** A whole number of thousandths with at most eight digits. */
  predicate IsStrike(strike: real) {
    0.0 <= strike * 1000.0 <= 99_999_999.0 && (strike * 1000.0).Floor as real == strike * 1000.0
  }

  lemma {:induction false} FieldsSplit(part: string, rest: string)
    requires forall i :: 0 <= i < |part| ==> part[i] != '-'
    ensures Fields(part) == [part]
    ensures Fields(part + "-" + rest) == [part] + Fields(rest)
  {
    var whole := part + "-" + rest;
    if part == [] {
      assert whole[1..] == rest;
    } else {
      FieldsSplit(part[1..], rest);
      assert whole[1..] == part[1..] + "-" + rest;
      assert [part[0]] + part[1..] == part;
    }
  }

  lemma DateFields(date: string)
    requires IsDate(date)
    ensures Fields(date) == [date[..4], date[5..7], date[8..]]
  {
    FieldsSplit(date[..4], date[5..]);
    assert date == date[..4] + "-" + date[5..];
    FieldsSplit(date[5..7], date[8..]);
    assert date[5..] == date[5..7] + "-" + date[8..];
    FieldsSplit(date[8..], "");
  }

  lemma UpperRoot(s: string)
    requires IsRoot(s)
    ensures Upper(s) == s
  {
  }

  /** The strike field of a printable strike. */
  lemma StrikeField(strike: real)
    requires IsStrike(strike)
    ensures var field := PadStart(Integer(Round(strike * 1000.0)), 8);
            |field| == 8 && AllDigits(field) && Value(field) as real / 1000.0 == strike
  {
    hide PadStart, Integer, Value, AllDigits;
    var mills := (strike * 1000.0).Floor;
    assert Round(strike * 1000.0) == mills;
    EightDigits();
    PaddedField(mills);
  }

  lemma PaddedField(mills: nat)
    requires mills < PowerOfTen(8)
    ensures var field := PadStart(Integer(mills), 8); |field| == 8 && AllDigits(field) && Value(field) == mills
  {
    hide PowerOfTen, Value, AllDigits, Decimal;
    DecimalLength(mills, 8);
    DecimalValue(mills);
    PaddingKeepsValue(8 - |Decimal(mills)|, Decimal(mills));
    assert Zeros(0) + Decimal(mills) == Decimal(mills);
  }

  lemma EightDigits()
    ensures PowerOfTen(8) == 100_000_000
  {
    assert PowerOfTen(2) == 100;
    assert PowerOfTen(4) == 10_000;
    assert PowerOfTen(6) == 1_000_000;
  }

  lemma PrintedParts(u: string, date: string, optionType: OptionType, strike: real)
    requires IsRoot(u) && IsDate(date) && IsStrike(strike)
    ensures FormatOccSymbol(u, date, optionType, strike) ==
            u + (date[2..4] + date[5..7] + date[8..]) + (if optionType.Call? then "C" else "P")
            + PadStart(Integer(Round(strike * 1000.0)), 8)
  {
    hide Fields, PadStart, Integer, Round;
    DateFields(date);
    UpperRoot(u);
    assert date[..4][2..] == date[2..4];
  }

  /** What the parser returns is always in printable form. */
  lemma ParsedForm(s: string)
    requires ParseOccSymbol(s).Some?
    ensures var occ := ParseOccSymbol(s).value; IsRoot(occ.underlying) && IsDate(occ.expiration) && IsStrike(occ.strike)
  {
    var field := s[|s| - 8..];
    EightDigits();
    ValueBound(field);
    var mills := Value(field);
    assert mills as real / 1000.0 * 1000.0 == mills as real;
  }

  lemma {:induction false} ValueBound(s: string)
    requires AllDigits(s)
    ensures Value(s) < PowerOfTen(|s|)
  {
    if s != [] { ValueBound(s[..|s| - 1]); }
  }

  lemma ParsePrinted(u: string, date: string, optionType: OptionType, strike: real)
    requires IsRoot(u) && IsDate(date) && IsStrike(strike)
    ensures ParseOccSymbol(FormatOccSymbol(u, date, optionType, strike)) == Some(Occ(u, date, optionType, strike))
  {
    hide FormatOccSymbol, PadStart, Integer, Round, IsStrike, Value;
    PrintedParts(u, date, optionType, strike);
    StrikeField(strike);
    var s := FormatOccSymbol(u, date, optionType, strike);
    var ymd := date[2..4] + date[5..7] + date[8..];
    var (n, field) := (|s|, PadStart(Integer(Round(strike * 1000.0)), 8));
    assert n == |u| + 15;
    assert s[..n - 15] == u && s[n - 15..n - 9] == ymd && s[n - 8..] == field;
    assert AllDigits(ymd);
    assert ymd[..2] == date[2..4] && ymd[2..4] == date[5..7] && ymd[4..] == date[8..];
    assert Dated(ymd) == date;
  }

  /**
   Parsing a printed symbol gives back what was printed exactly when the root is one to six upper-case
   letters or dots, the date is one of this century in full form, and the strike is a whole number of
   thousandths of at most eight digits. Outside of that something is lost, or the symbol is unreadable.
   */
  lemma ParseUndoesFormatIff(underlying: string, expiration: string, optionType: OptionType, strike: real)
    ensures ParseOccSymbol(FormatOccSymbol(underlying, expiration, optionType, strike)) == Some(Occ(underlying, expiration, optionType, strike))
            <==> IsRoot(underlying) && IsDate(expiration) && IsStrike(strike)
  {
    hide FormatOccSymbol, ParseOccSymbol, IsStrike, IsRoot, IsDate;
    var s := FormatOccSymbol(underlying, expiration, optionType, strike);
    if ParseOccSymbol(s) == Some(Occ(underlying, expiration, optionType, strike)) { ParsedForm(s); }
    if IsRoot(underlying) && IsDate(expiration) && IsStrike(strike) { ParsePrinted(underlying, expiration, optionType, strike); }
  }

  lemma DatedParts(ymd: string)
    requires |ymd| == 6
    ensures Dated(ymd)[2..4] + Dated(ymd)[5..7] + Dated(ymd)[8..] == ymd
  {
    var date := Dated(ymd);
    assert date[2..4] == ymd[..2] && date[5..7] == ymd[2..4] && date[8..] == ymd[4..];
  }

  lemma ParsedFields(s: string)
    requires ParseOccSymbol(s).Some?
    ensures var (n, occ) := (|s|, ParseOccSymbol(s).value);
            && 15 < n && AllDigits(s[n - 8..])
            && occ.underlying == s[..n - 15] && occ.expiration == Dated(s[n - 15..n - 9])
            && occ.optionType == (if s[n - 9] == 'C' then Call else Put) && s[n - 9] in {'C', 'P'}
            && occ.strike == Value(s[n - 8..]) as real / 1000.0
            && s == s[..n - 15] + s[n - 15..n - 9] + [s[n - 9]] + s[n - 8..]
  {
    hide Dated, Value;
  }

  /** Printing a parsed symbol gives the symbol back, for every symbol the parser accepts. */
  lemma FormatUndoesParse(s: string)
    requires ParseOccSymbol(s).Some?
    ensures var occ := ParseOccSymbol(s).value;
            FormatOccSymbol(occ.underlying, occ.expiration, occ.optionType, occ.strike) == s
  {
    hide FormatOccSymbol, ParseOccSymbol, PadStart, Integer, Round, IsStrike, IsDate, IsRoot, Value, Decimal, Dated, AllDigits;
    ParsedForm(s);
    ParsedFields(s);
    var (n, occ) := (|s|, ParseOccSymbol(s).value);
    PrintedParts(occ.underlying, occ.expiration, occ.optionType, occ.strike);
    DatedParts(s[n - 15..n - 9]);
    PrintedStrike(s[n - 8..]);
  }

  lemma PrintedStrike(field: string)
    requires |field| == 8 && AllDigits(field)
    ensures PadStart(Integer(Round(Value(field) as real / 1000.0 * 1000.0)), 8) == field
  {
    var mills := Value(field);
    assert mills as real / 1000.0 * 1000.0 == mills as real;
    assert Round(mills as real) == mills;
    FixedWidth(field);
  }

  // ---------------------------------------------------------------------------
  // What is read and what is printed
  // ---------------------------------------------------------------------------

  const LETTERS := "ABCDEFGHIJKLMNOPQRSTUVWXYZ"
  const SMALL_LETTERS := "abcdefghijklmnopqrstuvwxyz"

  /** The parser accepts exactly these four fields in a row, and takes each of them for what it is. */
  lemma ParsesIff(root: string, ymd: string, side: char, mills: string)
    requires |ymd| == 6 && |mills| == 8
    ensures var parsed := ParseOccSymbol(root + ymd + [side] + mills);
            && (parsed.Some? <==>
                  && 1 <= |root| <= 6 && (forall i :: 0 <= i < |root| ==> root[i] in LETTERS || root[i] == '.')
                  && AllDigits(ymd) && AllDigits(mills) && (side == 'C' || side == 'P'))
            && (parsed.Some? ==>
                  && parsed.value.underlying == root && parsed.value.expiration == "20" + ymd[..2] + "-" + ymd[2..4] + "-" + ymd[4..]
                  && (parsed.value.optionType.Call? <==> side == 'C') && parsed.value.strike * 1000.0 == Value(mills) as real)
  {
    hide Value, AllDigits;
    var s := root + ymd + [side] + mills;
    var n := |s|;
    assert s[..n - 15] == root && s[n - 15..n - 9] == ymd && s[n - 9] == side && s[n - 8..] == mills;
    forall i | 0 <= i < |root| ensures IsRootChar(root[i]) <==> root[i] in LETTERS || root[i] == '.' { CapitalLetter(root[i]); }
  }

  lemma CapitalLetter(c: char)
    ensures 'A' <= c <= 'Z' <==> c in LETTERS
  {
    if 'A' <= c <= 'Z' { assert LETTERS[c as int - 'A' as int] == c; }
  }

  /** Anything shorter is no symbol. */
  lemma TooShort(s: string)
    requires |s| < 15
    ensures ParseOccSymbol(s).None?
  {
  }

  /** Small letters become capitals, one by one; every other character stays. */
  lemma UpperMeans(s: string, i: nat)
    requires i < |s|
    ensures |Upper(s)| == |s|
    ensures forall k :: 0 <= k < 26 && s[i] == SMALL_LETTERS[k] ==> Upper(s)[i] == LETTERS[k]
    ensures s[i] !in SMALL_LETTERS ==> Upper(s)[i] == s[i]
  {
    if 'a' <= s[i] <= 'z' { assert SMALL_LETTERS[s[i] as int - 'a' as int] == s[i]; }
  }

  /** The printer drops the first two characters of the year, joins the date, names the side, and ends with the strike field. */
  lemma FormatMeans(underlying: string, year: string, month: string, day: string, optionType: OptionType, strike: real)
    requires '-' !in year && '-' !in month && '-' !in day && |year| >= 2
    ensures exists field :: StrikePrinted(strike, field)
              && FormatOccSymbol(underlying, year + "-" + month + "-" + day, optionType, strike) ==
                 Upper(underlying) + year[2..] + month + day + (match optionType case Call => "C" case Put => "P") + field
  {
    hide PadStart, Integer, Round, StrikePrinted;
    var expiration := year + "-" + month + "-" + day;
    assert expiration == year + "-" + (month + "-" + day);
    FieldsSplit(year, month + "-" + day);
    FieldsSplit(month, day);
    FieldsSplit(day, "");
    var field := PadStart(Integer(Round(strike * 1000.0)), 8);
    PrintedNearest(strike);
  }

  /** The nearest number of thousandths, the higher of two; a strike not below zero gets at least eight digits. */
  ghost predicate StrikePrinted(strike: real, field: string) {
    strike >= 0.0 ==>
      && |field| >= 8 && AllDigits(field) && (|field| > 8 ==> field[0] != '0')
      && strike * 1000.0 - 0.5 < Value(field) as real <= strike * 1000.0 + 0.5
  }

  lemma PrintedNearest(strike: real)
    ensures StrikePrinted(strike, PadStart(Integer(Round(strike * 1000.0)), 8))
  {
    if strike >= 0.0 {
      hide Decimal, Value, AllDigits;
      var mills := Round(strike * 1000.0);
      var digits := Decimal(mills);
      DecimalValue(mills);
      DecimalFirst(mills);
      if |digits| < 8 { PaddingKeepsValue(8 - |digits|, digits); }
    }
  }

  lemma {:induction false} DecimalFirst(n: nat)
    ensures |Decimal(n)| > 1 ==> Decimal(n)[0] != '0'
  {
    if n >= 100 { DecimalFirst(n / 10); }
  }
}
