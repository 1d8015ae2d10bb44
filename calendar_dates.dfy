/**
 * The dates of the dashboard calendar: the local calendar date of a
 * JavaScript `Date` built with `new Date(year, monthIndex, day)` (proleptic
 * Gregorian, months counted from 0, out-of-range months and days carried
 * into the neighbouring ones), and the YYYYMMDD strings the dashboard
 * passes around, with their parser and formatter.
 */
module CalendarDates {
  import opened Common

  /** A calendar date: `getFullYear()`, `getMonth()` (0 = January) and `getDate()`. */
  datatype Date = Date(year: int, month: int, day: int)

  predicate IsLeapYear(y: int) {
    y % 4 == 0 && (y % 100 != 0 || y % 400 == 0)
  }

  /** The length of month m (0-based) of year y. */
  function DaysInMonth(y: int, m: int): (n: int)
    requires 0 <= m < 12
    ensures 28 <= n <= 31
  {
    if m == 1 then (if IsLeapYear(y) then 29 else 28)
    else if m == 3 || m == 5 || m == 8 || m == 10 then 30
    else 31
  }

  /**
   * The Gregorian month lengths: February has 29 days in leap years and 28
   * otherwise, April, June, September and November 30, the others 31.
   */
  lemma MonthLengths(y: int, m: int)
    requires 0 <= m < 12
    ensures DaysInMonth(y, m) == 29 <==> m == 1 && IsLeapYear(y)
    ensures DaysInMonth(y, m) == 28 <==> m == 1 && !IsLeapYear(y)
    ensures DaysInMonth(y, m) == 30 <==> m == 3 || m == 5 || m == 8 || m == 10
    ensures DaysInMonth(y, m) == 31 <==> m in {0, 2, 4, 6, 7, 9, 11}
  {
  }

  predicate ValidDate(d: Date) {
    0 <= d.month < 12 && 1 <= d.day <= DaysInMonth(d.year, d.month)
  }

  /** Days in the months of year y before month m. */
  function DaysBeforeMonth(y: int, m: int): int
    requires 0 <= m < 12
  {
    [0, 31, 59, 90, 120, 151, 181, 212, 243, 273, 304, 334][m] + (if m >= 2 && IsLeapYear(y) then 1 else 0)
  }

  /** Days from 1 January of year 1 to 1 January of year y (negative before it). */
  function DaysBeforeYear(y: int): int {
    365 * (y - 1) + (y - 1) / 4 - (y - 1) / 100 + (y - 1) / 400
  }

  /** The position of a date on a line of consecutive days. */
  function DayNumber(y: int, m: int, d: int): int
    requires 0 <= m < 12
  {
    DaysBeforeYear(y) + DaysBeforeMonth(y, m) + d - 1
  }

  function DayNumberOf(date: Date): int
    requires 0 <= date.month < 12
  {
    DayNumber(date.year, date.month, date.day)
  }

  /** The month after (y, m). */
  function NextMonth(y: int, m: int): (r: (int, int))
    requires 0 <= m < 12
    ensures 0 <= r.1 < 12
  {
    if m == 11 then (y + 1, 0) else (y, m + 1)
  }

  /** The month before (y, m). */
  function PrevMonth(y: int, m: int): (r: (int, int))
    requires 0 <= m < 12
    ensures 0 <= r.1 < 12
    ensures NextMonth(r.0, r.1) == (y, m)
  {
    if m == 0 then (y - 1, 11) else (y, m - 1)
  }

  /** A year has 366 days when it is a leap year and 365 otherwise. */
  lemma YearLength(y: int)
    ensures DaysBeforeYear(y + 1) == DaysBeforeYear(y) + (if IsLeapYear(y) then 366 else 365)
  {
    Crossing4(y);
    Crossing100(y);
    Crossing400(y);
    Divisors(y);
  }

  /** Going from y - 1 to y crosses a multiple of 4 exactly when y is one. */
  lemma Crossing4(y: int)
    ensures y / 4 - (y - 1) / 4 == if y % 4 == 0 then 1 else 0
  {
  }

  lemma Crossing100(y: int)
    ensures y / 100 - (y - 1) / 100 == if y % 100 == 0 then 1 else 0
  {
  }

  lemma Crossing400(y: int)
    ensures y / 400 - (y - 1) / 400 == if y % 400 == 0 then 1 else 0
  {
  }

  /** Multiples of 400 are multiples of 100, and those are multiples of 4. */
  lemma Divisors(y: int)
    ensures y % 400 == 0 ==> y % 100 == 0
    ensures y % 100 == 0 ==> y % 4 == 0
  {
  }

  /** The first of the next month lies a month's length after the first of this one. */
  lemma MonthStep(y: int, m: int)
    requires 0 <= m < 12
    ensures var (ny, nm) := NextMonth(y, m);
      DayNumber(ny, nm, 1) == DayNumber(y, m, 1) + DaysInMonth(y, m)
  {
    if m == 11 {
      YearLength(y);
    }
  }

  /**
   * The date a day count d lands on when counted from the first of month
   * m of year y: d = 1 is that first, larger d carry into later months and
   * smaller ones into earlier months.
   */
  function NormaliseDay(y: int, m: int, d: int): (r: Date)
    requires 0 <= m < 12
    ensures ValidDate(r)
    ensures 1 <= d <= DaysInMonth(y, m) ==> r == Date(y, m, d)
    decreases if d < 1 then 1 - d else 0, d
  {
    if d < 1 then
      var (py, pm) := PrevMonth(y, m);
      NormaliseDay(py, pm, d + DaysInMonth(py, pm))
    else if d > DaysInMonth(y, m) then
      var (ny, nm) := NextMonth(y, m);
      NormaliseDay(ny, nm, d - DaysInMonth(y, m))
    else
      Date(y, m, d)
  }

  /** The normalised date lies d - 1 days after the first of month m of year y. */
  lemma {:induction false} NormaliseDayNumber(y: int, m: int, d: int)
    requires 0 <= m < 12
    ensures DayNumberOf(NormaliseDay(y, m, d)) == DayNumber(y, m, 1) + d - 1
    decreases if d < 1 then 1 - d else 0, d
  {
    if d < 1 {
      var (py, pm) := PrevMonth(y, m);
      MonthStep(py, pm);
      NormaliseDayNumber(py, pm, d + DaysInMonth(py, pm));
    } else if d > DaysInMonth(y, m) {
      var (ny, nm) := NextMonth(y, m);
      MonthStep(y, m);
      NormaliseDayNumber(ny, nm, d - DaysInMonth(y, m));
    }
  }

  /** The year argument of the Date constructor: 0 to 99 mean 1900 to 1999. */
  function LegacyYear(y: int): (r: int)
    ensures 0 <= y <= 99 ==> r == 1900 + y
    ensures !(0 <= y <= 99) ==> r == y
  {
    if 0 <= y <= 99 then 1900 + y else y
  }

  /**
   * `new Date(year, monthIndex, day)`: the month index carries whole years
   * (rounding down), the day carries into neighbouring months.
   */
  function NewDate(year: int, monthIndex: int, day: int): (r: Date)
    ensures ValidDate(r)
  {
    NormaliseDay(LegacyYear(year) + monthIndex / 12, monthIndex % 12, day)
  }

  /**
   * The date `new Date(year, monthIndex, day)` lies day - 1 days after the
   * first of the month the year and month index name.
   */
  lemma NewDateDayNumber(year: int, monthIndex: int, day: int)
    ensures DayNumberOf(NewDate(year, monthIndex, day)) ==
      DayNumber(LegacyYear(year) + monthIndex / 12, monthIndex % 12, 1) + day - 1
  {
    NormaliseDayNumber(LegacyYear(year) + monthIndex / 12, monthIndex % 12, day);
  }

  /** Arguments that already name a date, in a year outside 0..99, give that date. */
  lemma NewDateOfValid(d: Date)
    requires ValidDate(d) && !(0 <= d.year <= 99)
    ensures NewDate(d.year, d.month, d.day) == d
  {
    assert d.month / 12 == 0 && d.month % 12 == d.month;
  }

  /** `getDay()`: 0 for Sunday to 6 for Saturday. */
  function Weekday(d: Date): (w: int)
    requires 0 <= d.month < 12
    ensures 0 <= w < 7
  {
    (DayNumberOf(d) + 1) % 7
  }

  /** 1 January 1970 was a Thursday. */
  lemma EpochIsThursday()
    ensures Weekday(Date(1970, 0, 1)) == 4
  {
    assert DaysBeforeYear(1970) == 719162;
  }

  /** The next month starts as many weekdays later as this month has days. */
  lemma NextMonthWeekday(y: int, m: int)
    requires 0 <= m < 12
    ensures var (ny, nm) := NextMonth(y, m);
      Weekday(Date(ny, nm, 1)) == (Weekday(Date(y, m, 1)) + DaysInMonth(y, m)) % 7
  {
    MonthStep(y, m);
    ModSevenShift(DayNumber(y, m, 1) + 1, DaysInMonth(y, m));
  }

  lemma ModSevenShift(w: int, n: int)
    ensures (w + n) % 7 == (w % 7 + n) % 7
  {
    var q := w / 7;
    assert w + n == 7 * q + (w % 7 + n);
  }

  /** `new Date(y, m + 1, 0).getDate()` is the length of month m of the (legacy-mapped) year y. */
  lemma LastDayOfMonth(y: int, m: int)
    requires 0 <= m < 12
    ensures NewDate(y, m + 1, 0) == Date(LegacyYear(y), m, DaysInMonth(LegacyYear(y), m))
  {
    var ly := LegacyYear(y);
    if m == 11 {
      assert (m + 1) / 12 == 1 && (m + 1) % 12 == 0;
      assert NormaliseDay(ly + 1, 0, 0) == NormaliseDay(ly, 11, 31);
    } else {
      assert (m + 1) / 12 == 0 && (m + 1) % 12 == m + 1;
      assert NormaliseDay(ly, m + 1, 0) == NormaliseDay(ly, m, DaysInMonth(ly, m));
    }
  }

  /** Within a month, `new Date(y, m, d)` is the date with that day in the legacy-mapped year. */
  lemma NewDateInMonth(y: int, m: int, d: int)
    requires 0 <= m < 12 && 1 <= d <= DaysInMonth(LegacyYear(y), m)
    ensures NewDate(y, m, d) == Date(LegacyYear(y), m, d)
  {
    assert m / 12 == 0 && m % 12 == m;
  }

  /** `new Date(y, m - 1, 1)`: the first of the previous month. */
  lemma NewDatePrevMonth(y: int, m: int)
    requires 0 <= m < 12
    ensures var (py, pm) := PrevMonth(LegacyYear(y), m);
      NewDate(y, m - 1, 1) == Date(py, pm, 1)
  {
    if m == 0 {
      assert (m - 1) / 12 == -1 && (m - 1) % 12 == 11;
    } else {
      assert (m - 1) / 12 == 0 && (m - 1) % 12 == m - 1;
    }
  }

  /** `new Date(y, m + 1, 1)`: the first of the next month. */
  lemma NewDateNextMonth(y: int, m: int)
    requires 0 <= m < 12
    ensures var (ny, nm) := NextMonth(LegacyYear(y), m);
      NewDate(y, m + 1, 1) == Date(ny, nm, 1)
  {
    if m == 11 {
      assert (m + 1) / 12 == 1 && (m + 1) % 12 == 0;
    } else {
      assert (m + 1) / 12 == 0 && (m + 1) % 12 == m + 1;
    }
  }

  /* ---------------------------------------------------------------------- */
  /* YYYYMMDD strings                                                       */
  /* ---------------------------------------------------------------------- */

  /** The length of the longest prefix of s made of decimal digits. */
  function DigitRun(s: string): (n: nat)
    ensures n <= |s| && AllDigits(s[..n])
    ensures n < |s| ==> !IsDigit(s[n])
  {
    if s != [] && IsDigit(s[0]) then
      var n := 1 + DigitRun(s[1..]);
      assert s[..n] == [s[0]] + s[1..][..n - 1];
      n
    else 0
  }

  /**
   * `parseInt(s, 10)`: leading whitespace and one sign are skipped, then the
   * leading digits are read; no digit at all is NaN (None).
   */
  function ParseIntJs(s: string): (r: Option<int>)
  {
    var t := TrimStart(s);
    var negative := t != [] && t[0] == '-';
    var rest := if t != [] && (t[0] == '-' || t[0] == '+') then t[1..] else t;
    var digits := rest[..DigitRun(rest)];
    var n: int := if digits == [] then 0 else ParseDigits(digits);
    if digits == [] then None else if negative then Some(-n) else Some(n)
  }

  /** A string of digits reads as its decimal value. */
  lemma ParseIntDigits(s: string)
    requires s != [] && AllDigits(s)
    ensures ParseIntJs(s) == Some(ParseDigits(s))
  {
    assert IsDigit(s[0]);
    assert !IsJsWhitespace(s[0]);
    var t := TrimStart(s);
    assert |t| == |s|;
    assert t == s;
    var n := DigitRun(s);
    assert n == |s|;
    assert s[..n] == s;
  }

  /** A slice of a string of digits reads as its decimal value. */
  lemma ParseSlice(s: string, a: nat, b: nat)
    requires a < b <= |s| && AllDigits(s)
    ensures AllDigits(s[a..b])
    ensures ParseIntJs(JsSubstring(s, a, b)) == Some(ParseDigits(s[a..b]))
  {
    assert JsSubstring(s, a, b) == s[a..b];
    ParseIntDigits(s[a..b]);
  }

  /** What `parseDateString` gives: null, an Invalid Date, or a date. */
  datatype ParsedDate = NoDate | InvalidDate | ParsedOk(date: Date)

  /**
   * `parseDateString(s)`: null for a missing or empty string or a length
   * other than 8; otherwise the Date of the year in characters 0-3, the
   * 1-based month in 4-5 and the day in 6-7, which is an Invalid Date when
   * a part has no leading digits.
   */
  function ParseDateString(s: Option<string>): (r: ParsedDate)
    ensures r.NoDate? <==> s.None? || |s.value| != 8
    ensures r.ParsedOk? ==> ValidDate(r.date)
  {
    if s.None? || s.value == "" || |s.value| != 8 then NoDate
    else
      var year := ParseIntJs(JsSubstring(s.value, 0, 4));
      var month := ParseIntJs(JsSubstring(s.value, 4, 6));
      var day := ParseIntJs(JsSubstring(s.value, 6, 8));
      DateOfParts(year, month, day)
  }

  function DateOfParts(year: Option<int>, month: Option<int>, day: Option<int>): (r: ParsedDate)
    ensures r.ParsedOk? ==> ValidDate(r.date)
  {
    if year.None? || month.None? || day.None? then InvalidDate
    else ParsedOk(NewDate(year.value, month.value - 1, day.value))
  }

  /** `formatDateString(date)`: the year, then the 1-based month and the day on two digits each. */
  function FormatDateString(d: Date): string
    requires d.month >= 0 && d.day >= 0
  {
    IntToString(d.year) + Pad2(d.month + 1) + Pad2(d.day)
  }

  /** A date of a four-digit year formats to eight digits. */
  lemma FormatShape(d: Date)
    requires ValidDate(d) && 1000 <= d.year <= 9999
    ensures var s := FormatDateString(d);
      |s| == 8 && AllDigits(s) && s[0] != '0' &&
      s[0..4] == NatToString(d.year) && s[4..6] == Pad2(d.month + 1) && s[6..8] == Pad2(d.day)
  {
    Pad2Digits(d.month + 1);
    Pad2Digits(d.day);
    FourDigitYear(d.year);
  }

  lemma FourDigitYear(y: nat)
    requires 1000 <= y <= 9999
    ensures |NatToString(y)| == 4
  {
    assert NatToString(y) == NatToString(y / 10) + [DigitChar(y % 10)];
    assert NatToString(y / 10) == NatToString(y / 100) + [DigitChar(y / 10 % 10)];
    assert NatToString(y / 100) == NatToString(y / 1000) + [DigitChar(y / 100 % 10)];
  }

  /** An eight-digit string parses to the Date of its three parts. */
  lemma ParseEightDigits(s: string)
    requires |s| == 8 && AllDigits(s)
    ensures ParseDateString(Some(s)) ==
      DateOfParts(Some(ParseDigits(s[0..4])), Some(ParseDigits(s[4..6])), Some(ParseDigits(s[6..8])))
  {
    ParseSlice(s, 0, 4);
    ParseSlice(s, 4, 6);
    ParseSlice(s, 6, 8);
  }


  /** Parsing a formatted date of a four-digit year gives the date back. */
  lemma ParseFormat(d: Date)
    requires ValidDate(d) && 1000 <= d.year <= 9999
    ensures ParseDateString(Some(FormatDateString(d))) == ParsedOk(d)
  {
    var s := FormatDateString(d);
    FormatShape(d);
    ParseEightDigits(s);
    ParseNatToString(d.year);
    Pad2Digits(d.month + 1);
    Pad2Digits(d.day);
    NewDateOfValid(d);
  }

  /** Fewer than 1000 takes at most three digits. */
  lemma ShortNumber(n: nat)
    ensures n < 1000 ==> |NatToString(n)| <= 3
  {
    if 10 <= n < 1000 {
      assert |NatToString(n)| == |NatToString(n / 10)| + 1;
      if n / 10 >= 10 {
        assert |NatToString(n / 10)| == |NatToString(n / 100)| + 1;
      }
    }
  }

  /** An eight-digit string naming a real date with a four-digit year parses to that date. */
  lemma ParseRealDate(s: string, y: int, m: int, d: int)
    requires |s| == 8 && AllDigits(s)
    requires y == ParseDigits(s[0..4]) && m == ParseDigits(s[4..6]) && d == ParseDigits(s[6..8])
    requires y >= 1000 && ValidDate(Date(y, m - 1, d))
    ensures ParseDateString(Some(s)) == ParsedOk(Date(y, m - 1, d))
  {
    NewDateOfValid(Date(y, m - 1, d));
    assert DateOfParts(Some(y), Some(m), Some(d)) == ParsedOk(Date(y, m - 1, d));
    ParseEightDigits(s);
  }

  /** The leading four digits of a string that does not start with 0 name a year of at least 1000. */
  lemma FourDigitsNoLeadingZero(t: string)
    requires |t| == 4 && AllDigits(t) && t[0] != '0'
    ensures ParseDigits(t) >= 1000
    ensures IntToString(ParseDigits(t)) == t
  {
    NatToStringParse(t);
    ShortNumber(ParseDigits(t));
  }

  /**
   * Formatting the date named by a four-digit year, a two-digit month and a
   * two-digit day gives those digits back.
   */
  lemma FormatOfDigits(year: string, month: string, day: string)
    requires |year| == 4 && AllDigits(year) && year[0] != '0'
    requires |month| == 2 && AllDigits(month) && |day| == 2 && AllDigits(day)
    requires ParseDigits(month) >= 1
    ensures FormatDateString(Date(ParseDigits(year), ParseDigits(month) - 1, ParseDigits(day))) == year + month + day
  {
    var y, m, d := ParseDigits(year), ParseDigits(month), ParseDigits(day);
    FormatOfParts(y, m, d);
    FourDigitsNoLeadingZero(year);
    Pad2Parse(month);
    Pad2Parse(day);
  }

  /** A formatted date is its year, then the 1-based month and the day on two digits. */
  lemma FormatOfParts(y: int, m: int, d: int)
    requires m >= 1 && d >= 0
    ensures FormatDateString(Date(y, m - 1, d)) == IntToString(y) + Pad2(m) + Pad2(d)
  {
  }

  /**
   * Formatting a parsed YYYYMMDD string of a real date with a four-digit
   * year gives the string back.
   */
  lemma FormatParse(s: string)
    requires |s| == 8 && AllDigits(s) && s[0] != '0'
    requires ValidDate(Date(ParseDigits(s[0..4]), ParseDigits(s[4..6]) - 1, ParseDigits(s[6..8])))
    ensures ParseDateString(Some(s)) == ParsedOk(Date(ParseDigits(s[0..4]), ParseDigits(s[4..6]) - 1, ParseDigits(s[6..8])))
    ensures FormatDateString(ParseDateString(Some(s)).date) == s
  {
    FourDigitsNoLeadingZero(s[0..4]);
    ParseRealDate(s, ParseDigits(s[0..4]), ParseDigits(s[4..6]), ParseDigits(s[6..8]));
    FormatOfEightDigits(s);
  }

  /** Formatting the date an eight-digit string names gives the string back. */
  lemma FormatOfEightDigits(s: string)
    requires |s| == 8 && AllDigits(s) && s[0] != '0' && ParseDigits(s[4..6]) >= 1
    ensures FormatDateString(Date(ParseDigits(s[0..4]), ParseDigits(s[4..6]) - 1, ParseDigits(s[6..8]))) == s
  {
    EightDigitParts(s);
    FormatOfDigits(s[0..4], s[4..6], s[6..8]);
  }

  /** An eight-digit string is its year, month and day digits, each all digits. */
  lemma EightDigitParts(s: string)
    requires |s| == 8 && AllDigits(s)
    ensures AllDigits(s[0..4]) && AllDigits(s[4..6]) && AllDigits(s[6..8])
    ensures s == s[0..4] + s[4..6] + s[6..8]
  {
    assert s == s[0..4] + s[4..8];
    assert s[4..8] == s[4..6] + s[6..8];
  }

  /** The three parts of "20250230" read as 2025, 2 and 30. */
  lemma Parts20250230(s: string)
    requires s == "20250230"
    ensures AllDigits(s) && ParseDigits(s[0..4]) == 2025 && ParseDigits(s[4..6]) == 2 && ParseDigits(s[6..8]) == 30
  {
    assert s[0..4] == "2025" && s[4..6] == "02" && s[6..8] == "30";
    assert ParseDigits("2025") == 2025 by {
      assert "2025"[..3] == "202" && "202"[..2] == "20" && "20"[..1] == "2" && "2"[..0] == [];
    }
    assert ParseDigits("02") == 2 by {
      assert "02"[..1] == "0" && "0"[..0] == [];
    }
    assert ParseDigits("30") == 30 by {
      assert "30"[..1] == "3" && "3"[..0] == [];
    }
  }

  /** 30 February 2025 as `new Date` arguments is 2 March 2025. */
  lemma February30()
    ensures NewDate(2025, 1, 30) == Date(2025, 2, 2)
  {
    assert NormaliseDay(2025, 1, 30) == NormaliseDay(2025, 2, 2);
  }

  /**
   * A day past the end of the month is carried forward: a string such as
   * "20250230", whose parts read 2025, 02 and 30, parses to 2 March 2025,
   * which formats as "20250302".
   */
  lemma OutOfRangeDayCarries(s: string)
    requires |s| == 8 && AllDigits(s)
    requires ParseDigits(s[0..4]) == 2025 && ParseDigits(s[4..6]) == 2 && ParseDigits(s[6..8]) == 30
    ensures ParseDateString(Some(s)) == ParsedOk(Date(2025, 2, 2))
    ensures FormatDateString(ParseDateString(Some(s)).date) == "20250302"
  {
    ParseEightDigits(s);
    February30();
    March2Format();
  }

  /** 2 March 2025 formats as "20250302". */
  lemma March2Format()
    ensures FormatDateString(Date(2025, 2, 2)) == "20250302"
  {
    assert NatToString(2025) == "2025" by {
      assert NatToString(2) == "2" && NatToString(20) == "20" && NatToString(202) == "202";
    }
    assert Pad2(3) == "03" && Pad2(2) == "02";
  }

  /**
   * The dashboard's date label: `substring(6, 8)/substring(4, 6)/substring(0, 4)`,
   * that is DD/MM/YYYY for a YYYYMMDD string.
   */
  function DateLabel(s: string): (text: string)
    ensures |s| == 8 ==> |text| == 10 && text[2] == '/' && text[5] == '/'
  {
    JsSubstring(s, 6, 8) + "/" + JsSubstring(s, 4, 6) + "/" + JsSubstring(s, 0, 4)
  }

  /** The label keeps every character: the YYYYMMDD string can be read back from it. */
  lemma DateLabelReadsBack(s: string)
    requires |s| == 8
    ensures var text := DateLabel(s);
      text[6..10] + text[3..5] + text[0..2] == s
  {
    var text := DateLabel(s);
    assert text[6..10] == s[..4];
    assert text[3..5] == s[4..6];
    assert text[0..2] == s[6..];
    assert s == s[..4] + s[4..6] + s[6..];
  }
}
