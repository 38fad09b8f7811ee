/**
 * The proleptic Gregorian calendar of Python's `datetime.date`, as far as the
 * ledger needs it: ordinals and `weekday()`, adding days (`+ timedelta`), the
 * "MM/DD/YYYY" text the sheets use (`strptime("%m/%d/%Y")`, `strftime` with
 * "%m/%d/%Y" and "%-m/%-d/%Y"), and the month-length arithmetic of
 * `projected_spending`.
 */
module Calendar {
  import opened Wrappers
  import opened PyText

  datatype Date = Date(year: int, month: int, day: int)

  /** A moment: a date and the time of day, in microseconds after midnight. */
  datatype DateTime = DateTime(date: Date, time: nat)

  predicate IsLeap(y: int) {
    y % 4 == 0 && (y % 100 != 0 || y % 400 == 0)
  }

  function MonthLength(y: int, m: int): (n: int)
    requires 1 <= m <= 12
    ensures 28 <= n <= 31
    ensures n == 29 <==> (m == 2 && IsLeap(y))
  {
    if m == 2 then (if IsLeap(y) then 29 else 28)
    else if m == 4 || m == 6 || m == 9 || m == 11 then 30
    else 31
  }

  function YearLength(y: int): int {
    if IsLeap(y) then 366 else 365
  }

  /** The dates `datetime.date` can represent: years 1 to 9999. */
  predicate Valid(d: Date) {
    1 <= d.year <= 9999 && 1 <= d.month <= 12 && 1 <= d.day <= MonthLength(d.year, d.month)
  }

  const MinDate := Date(1, 1, 1)
  const MaxDate := Date(9999, 12, 31)

  function DaysBeforeYear(y: int): int {
    var p := y - 1;
    365 * p + p / 4 - p / 100 + p / 400
  }

  function DaysBeforeMonth(y: int, m: int): int
    requires 1 <= m <= 13
    decreases m
  {
    if m == 1 then 0 else DaysBeforeMonth(y, m - 1) + MonthLength(y, m - 1)
  }

  /** `date.toordinal()`: 1 for 0001-01-01, counting every day since. */
  function Ordinal(d: Date): int
    requires Valid(d)
  {
    DaysBeforeYear(d.year) + DaysBeforeMonth(d.year, d.month) + d.day
  }

  /** `date.weekday()`: Monday is 0 and Sunday is 6. */
  function Weekday(d: Date): (w: int)
    requires Valid(d)
    ensures 0 <= w < 7
  {
    (Ordinal(d) + 6) % 7
  }

  /** The day after `d`, or nothing past 9999-12-31 (where Python raises OverflowError). */
  function NextDay(d: Date): Option<Date>
    requires Valid(d)
  {
    if d.day < MonthLength(d.year, d.month) then Some(Date(d.year, d.month, d.day + 1))
    else if d.month < 12 then Some(Date(d.year, d.month + 1, 1))
    else if d.year < 9999 then Some(Date(d.year + 1, 1, 1))
    else None
  }

  /** The day before `d`, or nothing before 0001-01-01. */
  function PrevDay(d: Date): Option<Date>
    requires Valid(d)
  {
    if d.day > 1 then Some(Date(d.year, d.month, d.day - 1))
    else if d.month > 1 then Some(Date(d.year, d.month - 1, MonthLength(d.year, d.month - 1)))
    else if d.year > 1 then Some(Date(d.year - 1, 12, 31))
    else None
  }

  /** `d + timedelta(days=k)`, or nothing when the result leaves years 1 to 9999. */
  function AddDays(d: Date, k: int): Option<Date>
    requires Valid(d)
    decreases if k < 0 then -k else k
  {
    if k == 0 then Some(d)
    else if k > 0 then
      match NextDay(d)
      case None => None
      case Some(n) => NextDayOrdinal(d); AddDays(n, k - 1)
    else
      match PrevDay(d)
      case None => None
      case Some(p) => PrevDayOrdinal(d); AddDays(p, k + 1)
  }

  lemma YearLengthSum(y: int)
    ensures DaysBeforeMonth(y, 13) == YearLength(y)
  {
  }

  /** Moving `y` up by one adds one to `y / k` exactly when `k` divides the new value. */
  lemma DivStep(y: int)
    ensures y / 4 == (y - 1) / 4 + (if y % 4 == 0 then 1 else 0)
    ensures y / 100 == (y - 1) / 100 + (if y % 100 == 0 then 1 else 0)
    ensures y / 400 == (y - 1) / 400 + (if y % 400 == 0 then 1 else 0)
  {
  }

  lemma DaysBeforeNextYear(y: int)
    ensures DaysBeforeYear(y + 1) == DaysBeforeYear(y) + YearLength(y)
  {
    DivStep(y);
    var p := y - 1;
    assert DaysBeforeYear(y + 1) == 365 * p + 365 + y / 4 - y / 100 + y / 400;
    assert DaysBeforeYear(y) == 365 * p + p / 4 - p / 100 + p / 400;
  }

  lemma MaxOrdinal()
    ensures Valid(MaxDate) && Ordinal(MaxDate) == 3652059
  {
  }

  /** Stepping forward moves the ordinal by one; only the last representable day has no successor. */
  lemma NextDayOrdinal(d: Date)
    requires Valid(d)
    ensures NextDay(d).Some? ==> Valid(NextDay(d).value) && Ordinal(NextDay(d).value) == Ordinal(d) + 1
    ensures NextDay(d).None? <==> d == MaxDate
  {
    if d.day == MonthLength(d.year, d.month) && d.month == 12 && d.year < 9999 {
      YearLengthSum(d.year);
      DaysBeforeNextYear(d.year);
    }
  }

  /** Stepping back moves the ordinal by one; only the first representable day has no predecessor. */
  lemma PrevDayOrdinal(d: Date)
    requires Valid(d)
    ensures PrevDay(d).Some? ==> Valid(PrevDay(d).value) && Ordinal(PrevDay(d).value) == Ordinal(d) - 1
    ensures PrevDay(d).None? <==> d == MinDate
  {
    if d.day == 1 && d.month == 1 && d.year > 1 {
      YearLengthSum(d.year - 1);
      DaysBeforeNextYear(d.year - 1);
    }
  }

  /** Every valid date has an ordinal in 1 .. 3652059. */
  lemma {:induction false} OrdinalRange(d: Date)
    requires Valid(d)
    ensures 1 <= Ordinal(d) <= 3652059
  {
    var o := Ordinal(d);
    assert DaysBeforeMonth(d.year, d.month) >= 0 by { DaysBeforeMonthNonNeg(d.year, d.month); }
    assert DaysBeforeYear(d.year) >= 0;
    if d != MaxDate {
      NextDayOrdinal(d);
      var n := NextDay(d).value;
      assert Ordinal(n) == o + 1;
      LaterBounded(d, n);
    } else {
      MaxOrdinal();
    }
  }

  lemma {:induction false} DaysBeforeMonthNonNeg(y: int, m: int)
    requires 1 <= m <= 13
    ensures 0 <= DaysBeforeMonth(y, m) <= DaysBeforeMonth(y, 13)
    decreases m
  {
    if m > 1 {
      DaysBeforeMonthNonNeg(y, m - 1);
    }
    DaysBeforeMonthUpper(y, m);
  }

  lemma {:induction false} DaysBeforeMonthUpper(y: int, m: int)
    requires 1 <= m <= 13
    ensures DaysBeforeMonth(y, m) + DaysAfterMonth(y, m) == DaysBeforeMonth(y, 13)
    decreases 13 - m
  {
    if m < 13 {
      DaysBeforeMonthUpper(y, m + 1);
    }
  }

  /** The days of the months from `m` to December. */
  function DaysAfterMonth(y: int, m: int): (n: int)
    requires 1 <= m <= 13
    ensures n >= 0
    decreases 13 - m
  {
    if m == 13 then 0 else MonthLength(y, m) + DaysAfterMonth(y, m + 1)
  }

  /** A date whose successor is valid lies no later than the last representable day. */
  lemma LaterBounded(d: Date, n: Date)
    requires Valid(d) && Valid(n)
    ensures Ordinal(n) <= 3652059
  {
    var dm := DaysBeforeMonth(n.year, n.month);
    DaysBeforeMonthNonNeg(n.year, n.month);
    DaysBeforeMonthUpper(n.year, n.month);
    YearLengthSum(n.year);
    DaysBeforeNextYear(n.year);
    assert DaysAfterMonth(n.year, n.month) >= MonthLength(n.year, n.month);
    assert Ordinal(n) <= DaysBeforeYear(n.year + 1);
    assert DaysBeforeYear(n.year + 1) <= DaysBeforeYear(10000);
  }

  /**
   * Adding days moves the ordinal by exactly that many days, and fails only
   * when the target ordinal is outside 1 .. 3652059.
   */
  lemma AddDaysOrdinal(d: Date, k: int)
    requires Valid(d)
    ensures AddDays(d, k).Some? ==> Valid(AddDays(d, k).value) && Ordinal(AddDays(d, k).value) == Ordinal(d) + k
    ensures AddDays(d, k).None? <==> (Ordinal(d) + k < 1 || Ordinal(d) + k > 3652059)
  {
    OrdinalRange(d);
    if k >= 0 {
      AddDaysForward(d, k);
    } else {
      AddDaysBackward(d, -k);
    }
  }

  lemma {:induction false} AddDaysForward(d: Date, k: nat)
    requires Valid(d)
    ensures AddDays(d, k).Some? ==> Valid(AddDays(d, k).value) && Ordinal(AddDays(d, k).value) == Ordinal(d) + k
    ensures AddDays(d, k).None? <==> Ordinal(d) + k > 3652059
    decreases k
  {
    OrdinalRange(d);
    var o := Ordinal(d);
    if k > 0 {
      NextDayOrdinal(d);
      if d == MaxDate {
        MaxOrdinal();
        assert AddDays(d, k) == None && o + k > 3652059;
      } else {
        var n := NextDay(d).value;
        AddDaysForward(n, k - 1);
        assert AddDays(d, k) == AddDays(n, k - 1) && Ordinal(n) + (k - 1) == o + k;
      }
    }
  }

  lemma {:induction false} AddDaysBackward(d: Date, k: int)
    requires Valid(d) && k >= 0
    ensures AddDays(d, -k).Some? ==> Valid(AddDays(d, -k).value) && Ordinal(AddDays(d, -k).value) == Ordinal(d) - k
    ensures AddDays(d, -k).None? <==> Ordinal(d) - k < 1
    decreases k
  {
    OrdinalRange(d);
    var o := Ordinal(d);
    if k > 0 {
      PrevDayOrdinal(d);
      if d == MinDate {
        assert AddDays(d, -k) == None && o - k < 1;
      } else {
        var p := PrevDay(d).value;
        AddDaysBackward(p, k - 1);
        assert AddDays(d, -k) == AddDays(p, -(k - 1)) && Ordinal(p) - (k - 1) == o - k;
      }
    }
  }

  /** The Monday of the week of `d` is always representable: 0001-01-01 was a Monday. */
  lemma MondayExists(d: Date)
    requires Valid(d)
    ensures AddDays(d, -Weekday(d)).Some? && Valid(AddDays(d, -Weekday(d)).value)
    ensures Weekday(AddDays(d, -Weekday(d)).value) == 0
  {
    OrdinalRange(d);
    MondayArith(Ordinal(d));
    MondayAt(d, Weekday(d));
  }

  lemma MondayAt(d: Date, k: int)
    requires Valid(d) && 1 <= Ordinal(d) - k <= 3652059 && (Ordinal(d) - k + 6) % 7 == 0
    ensures AddDays(d, -k).Some? && Valid(AddDays(d, -k).value) && Weekday(AddDays(d, -k).value) == 0
  {
    AddDaysOrdinal(d, -k);
    WeekdayAt(AddDays(d, -k).value, Ordinal(d) - k);
  }

  lemma WeekdayAt(m: Date, n: int)
    requires Valid(m) && Ordinal(m) == n
    ensures Weekday(m) == (n + 6) % 7
  {
  }

  lemma MondayArith(o: int)
    requires o >= 1
    ensures o - (o + 6) % 7 >= 1 && (o - (o + 6) % 7 + 6) % 7 == 0
  {
  }

  /** The next day is the next weekday, Sunday wrapping round to Monday. */
  lemma WeekdayNext(d: Date)
    requires Valid(d) && d != MaxDate
    ensures Weekday(NextDay(d).value) == (Weekday(d) + 1) % 7
  {
    NextDayOrdinal(d);
  }

  /** 2024-01-01 was a Monday and 2024-01-06 a Saturday. */
  lemma WeekdayExamples()
    ensures Valid(Date(2024, 1, 1)) && Weekday(Date(2024, 1, 1)) == 0
    ensures Valid(Date(2024, 1, 6)) && Weekday(Date(2024, 1, 6)) == 5
  {
  }

  /** Python's datetime ordering: by date, then by time of day. */
  predicate AtOrAfter(a: DateTime, b: DateTime)
    requires Valid(a.date) && Valid(b.date)
  {
    Ordinal(a.date) > Ordinal(b.date) || (Ordinal(a.date) == Ordinal(b.date) && a.time >= b.time)
  }

  // ---------------------------------------------------------------- text forms

  function Digit(c: char): int {
    c as int - '0' as int
  }

  /** `%m`: "1".."9", "01".."09" or "10".."12". */
  function MonthField(t: string): (r: Option<int>)
    ensures r.Some? ==> 1 <= r.value <= 12
  {
    if |t| == 1 && '1' <= t[0] <= '9' then Some(Digit(t[0]))
    else if |t| == 2 && ((t[0] == '0' && '1' <= t[1] <= '9') || (t[0] == '1' && '0' <= t[1] <= '2'))
    then Some(10 * Digit(t[0]) + Digit(t[1]))
    else None
  }

  /** `%d`: "1".."9", "01".."31", or a space followed by "1".."9". */
  function DayField(t: string): (r: Option<int>)
    ensures r.Some? ==> 1 <= r.value <= 31
  {
    if |t| == 1 && '1' <= t[0] <= '9' then Some(Digit(t[0]))
    else if |t| == 2 && t[0] == ' ' && '1' <= t[1] <= '9' then Some(Digit(t[1]))
    else if |t| == 2 && ((t[0] == '0' && '1' <= t[1] <= '9') || (('1' <= t[0] <= '2') && IsDigit(t[1]))
                         || (t[0] == '3' && '0' <= t[1] <= '1'))
    then Some(10 * Digit(t[0]) + Digit(t[1]))
    else None
  }

  /** `%Y`: exactly four digits. */
  function YearField(t: string): (r: Option<int>)
    ensures r.Some? ==> 0 <= r.value <= 9999
  {
    if |t| == 4 && AllDigits(t) then Some(1000 * Digit(t[0]) + 100 * Digit(t[1]) + 10 * Digit(t[2]) + Digit(t[3]))
    else None
  }

  /**
   * `datetime.strptime(s, "%m/%d/%Y").date()`: three "/"-separated fields
   * covering the whole text, then a real calendar date; None where Python
   * raises ValueError.
   */
  function ParseMdY(s: string): (r: Option<Date>)
    ensures r.Some? ==> Valid(r.value)
  {
    var i := IndexOf(s, '/');
    if i < 0 then None
    else
      var rest := s[i + 1..];
      var j := IndexOf(rest, '/');
      if j < 0 then None
      else
        match (MonthField(s[..i]), DayField(rest[..j]), YearField(rest[j + 1..]))
        case (Some(m), Some(d), Some(y)) =>
          if 1 <= y && d <= MonthLength(y, m) then Some(Date(y, m, d)) else None
        case _ => None
  }

  function Pad2(n: nat): (r: string)
    requires n < 100
  {
    [DigitChar(n / 10), DigitChar(n % 10)]
  }

  function Pad4(n: nat): (r: string)
    requires n < 10000
  {
    [DigitChar(n / 1000), DigitChar(n / 100 % 10), DigitChar(n / 10 % 10), DigitChar(n % 10)]
  }

  /** `strftime("%m/%d/%Y")`: zero-padded month and day, four-digit year. */
  function FormatMdY(d: Date): string
    requires Valid(d)
  {
    Pad2(d.month) + "/" + Pad2(d.day) + "/" + Pad4(d.year)
  }

  /** `strftime("%-m/%-d/%Y")`: month and day without padding. */
  function FormatShort(d: Date): string
    requires Valid(d)
  {
    NatToString(d.month) + "/" + NatToString(d.day) + "/" + Pad4(d.year)
  }

  lemma YearFieldPad4(y: int)
    requires 1 <= y <= 9999
    ensures YearField(Pad4(y)) == Some(y)
  {
    var q1 := y / 10;
    var q2 := q1 / 10;
    assert q2 == y / 100;
    assert q2 / 10 == y / 1000;
    var s := Pad4(y);
    assert Digit(s[0]) == q2 / 10 && Digit(s[1]) == q2 % 10 && Digit(s[2]) == q1 % 10 && Digit(s[3]) == y % 10;
  }

  lemma ParseFields(a: string, b: string, c: string)
    requires '/' !in a && '/' !in b
    ensures ParseMdY(a + "/" + b + "/" + c) ==
      match (MonthField(a), DayField(b), YearField(c))
      case (Some(m), Some(d), Some(y)) =>
        if 1 <= y && d <= MonthLength(y, m) then Some(Date(y, m, d)) else None
      case _ => None
  {
    var s := a + "/" + b + "/" + c;
    IndexOfPrefix(a, '/', b + "/" + c);
    assert s == a + ['/'] + (b + "/" + c);
    var rest := s[|a| + 1..];
    assert rest == b + ['/'] + c;
    IndexOfPrefix(b, '/', c);
    assert s[..|a|] == a;
    assert rest[..|b|] == b && rest[|b| + 1..] == c;
  }

  /** Text written as "%m/%d/%Y" reads back as the same date. */
  lemma ParseFormatted(d: Date)
    requires Valid(d)
    ensures ParseMdY(FormatMdY(d)) == Some(d)
  {
    MonthFieldPad2(d.month);
    DayFieldPad2(d.day);
    ParseFields(Pad2(d.month), Pad2(d.day), Pad4(d.year));
    YearFieldPad4(d.year);
  }

  lemma MonthFieldPad2(m: int)
    requires 1 <= m <= 12
    ensures '/' !in Pad2(m) && MonthField(Pad2(m)) == Some(m)
  {
  }

  lemma DayFieldPad2(d: int)
    requires 1 <= d <= 31
    ensures '/' !in Pad2(d) && DayField(Pad2(d)) == Some(d)
  {
  }

  lemma MonthFieldShort(m: int)
    requires 1 <= m <= 12
    ensures '/' !in NatToString(m) && MonthField(NatToString(m)) == Some(m)
  {
    if m >= 10 {
      assert NatToString(m) == NatToString(1) + [DigitChar(m % 10)];
    }
  }

  lemma DayFieldShort(d: int)
    requires 1 <= d <= 31
    ensures '/' !in NatToString(d) && DayField(NatToString(d)) == Some(d)
  {
    if d >= 10 {
      assert NatToString(d) == NatToString(d / 10) + [DigitChar(d % 10)];
    }
  }

  /** Text written as "%-m/%-d/%Y" (as the writer stamps entries) also reads back as the same date. */
  lemma ParseShort(d: Date)
    requires Valid(d)
    ensures ParseMdY(FormatShort(d)) == Some(d)
  {
    MonthFieldShort(d.month);
    DayFieldShort(d.day);
    ParseFields(NatToString(d.month), NatToString(d.day), Pad4(d.year));
    YearFieldPad4(d.year);
  }

  /**
   * The month length `projected_spending` and `no_spend_days` compute: the
   * day before the first of month `month % 12 + 1` in the same year. For
   * December that is 31 December of the previous year, which has the right
   * length too, except in year 1, where the subtraction raises OverflowError
   * (None here).
   */
  function DaysInMonthAsWritten(y: int, m: int): Option<int>
    requires 1 <= y <= 9999 && 1 <= m <= 12
  {
    match PrevDay(Date(y, m % 12 + 1, 1))
    case Some(p) => Some(p.day)
    case None => None
  }

  /** The computed length is the true one, and it is missing only for December of year 1. */
  lemma DaysInMonthCorrect(y: int, m: int)
    requires 1 <= y <= 9999 && 1 <= m <= 12
    ensures DaysInMonthAsWritten(y, m) == if y == 1 && m == 12 then None else Some(MonthLength(y, m))
  {
  }
}
