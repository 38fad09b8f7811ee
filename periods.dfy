/**
 * The date-based queries of sheets_utils.py: `spent_this_week`,
 * `projected_spending`, `weekend_vs_weekday` and `no_spend_days`. Each reads
 * the date in column A of a data row with `strptime("%m/%d/%Y")` and skips the
 * row when it has no cells or the text does not parse; the current moment
 * (`datetime.today()`) is a parameter.
 */
module Periods {
  import opened Wrappers
  import opened Money
  import opened Calendar
  import opened Sheet
  import opened Ledger
  import opened Ranking

  /** The date of a data row, or None where `row[0]` or `strptime` raises. */
  function RowDate(row: seq<string>): (r: Option<Date>)
    ensures r.Some? ==> Valid(r.value)
  {
    if |row| == 0 then None else ParseMdY(row[0])
  }

  /** The sum of the amounts of a list of cells, in order. */
  function CellsTotal(cells: seq<Expense>): real {
    if cells == [] then 0.0 else CellsTotal(cells[..|cells| - 1]) + cells[|cells| - 1].0
  }

  /** The money a row holds in the amount columns B, I, P, X. */
  function RowAmount(row: seq<string>): real {
    CellsTotal(RowCells(row, AmountIdx))
  }

  /** The rows a query adds up, by their date. */
  datatype Period =
    | Since(start: DateTime)        // at or after a moment
    | InMonth(year: int, month: int)
    | Weekend(weekend: bool)        // Saturday or Sunday, or the other five days
    | AnyDay                        // every dated row

  predicate Selects(p: Period, d: Date)
    requires Valid(d)
  {
    match p
    case Since(start) => Valid(start.date) && AtOrAfter(DateTime(d, 0), start)
    case InMonth(y, m) => d.year == y && d.month == m
    case Weekend(w) => (Weekday(d) >= 5) == w
    case AnyDay => true
  }

  /** What a row adds to a query over `p`. */
  function RowShare(row: seq<string>, p: Period): real {
    ShareOf(RowDate(row), RowAmount(row), p)
  }

  /** The amount of a row dated `date`, if `p` selects that date. */
  function ShareOf(date: Option<Date>, amount: real, p: Period): real
    requires date.Some? ==> Valid(date.value)
  {
    match date
    case Some(d) => if Selects(p, d) then amount else 0.0
    case None => 0.0
  }

  /** The money of the rows whose date `p` selects. */
  function PeriodTotal(rows: Grid, p: Period): real {
    if rows == [] then 0.0 else PeriodTotal(rows[..|rows| - 1], p) + RowShare(rows[|rows| - 1], p)
  }

  // ------------------------------------------------------------ summing loops

  lemma CellsTotalAppend(a: seq<Expense>, b: seq<Expense>)
    ensures CellsTotal(a + b) == CellsTotal(a) + CellsTotal(b)
    decreases |b|
  {
    if b != [] {
      assert (a + b)[..|a + b| - 1] == a + b[..|b| - 1];
      CellsTotalAppend(a, b[..|b| - 1]);
    } else {
      assert a + b == a;
    }
  }

  /** The row's total after one more index. */
  lemma CellsTotalStep(row: seq<string>, idxs: seq<int>, j: int)
    requires 0 <= j < |idxs|
    ensures CellsTotal(RowCells(row, idxs[..j + 1])) ==
      CellsTotal(RowCells(row, idxs[..j])) + (if 0 <= idxs[j] < |row| then CleanMoney(row[idxs[j]]) else 0.0)
  {
    RowCellsStep(row, idxs, j);
    var last := if 0 <= idxs[j] < |row| then [(CleanMoney(row[idxs[j]]), row)] else [];
    CellsTotalAppend(RowCells(row, idxs[..j]), last);
    assert last != [] ==> last[..0] == [];
  }

  /** The inner loop: `total += clean_money(row[idx])` for each amount column the row reaches. */
  method AddRowAmounts(total: real, row: seq<string>, idxs: seq<int>) returns (t: real)
    ensures t == total + CellsTotal(RowCells(row, idxs))
  {
    t := total;
    for j := 0 to |idxs|
      invariant t == total + CellsTotal(RowCells(row, idxs[..j]))
    {
      CellsTotalStep(row, idxs, j);
      var idx := idxs[j];
      if !(0 <= idx < |row|) {
        continue;
      }
      t := t + CleanMoney(row[idx]);
    }
    assert idxs[..|idxs|] == idxs;
  }

  /** The outer loop shared by the queries: the money of every row whose date `p` selects. */
  method SumWhere(rows: Grid, p: Period) returns (total: real)
    ensures total == PeriodTotal(rows, p)
  {
    total := 0.0;
    for i := 0 to |rows|
      invariant total == PeriodTotal(rows[..i], p)
    {
      PeriodTotalStep(rows, i, p);
      var row := rows[i];
      if |row| == 0 {
        continue;
      }
      var date := ParseMdY(row[0]);
      if date.None? {
        continue;
      }
      if Selects(p, date.value) {
        total := AddRowAmounts(total, row, AmountIdx);
      }
    }
    assert rows[..|rows|] == rows;
  }

  /** One more row adds its share to the running total. */
  lemma PeriodTotalStep(rows: Grid, i: nat, p: Period)
    requires i < |rows|
    ensures PeriodTotal(rows[..i + 1], p) == PeriodTotal(rows[..i], p) + RowShare(rows[i], p)
  {
    assert rows[..i + 1][..i] == rows[..i];
    assert rows[..i + 1][i] == rows[i];
  }

  // ------------------------------------------------------------------ queries

  /** The Monday that starts the week of `today`. */
  function StartOfWeek(today: Date): (r: Date)
    requires Valid(today)
    ensures Valid(r) && Weekday(r) == 0
  {
    MondayExists(today);
    AddDays(today, -Weekday(today)).value
  }

  /** `spent_this_week()`: rows dated at or after `now - timedelta(days=now.weekday())`. */
  method SpentThisWeek(ws: InMemoryWorksheet, now: DateTime) returns (total: real)
    requires Valid(now.date)
    ensures total == PeriodTotal(DataRows(ws.rows), Since(DateTime(StartOfWeek(now.date), now.time)))
  {
    var all := ws.GetAllValues();
    var start := DateTime(StartOfWeek(now.date), now.time);
    total := SumWhere(DataRows(all), Since(start));
  }

  /**
   * The window `spent_this_week` uses starts on the Monday of the week at the
   * current time of day: rows after that Monday count, but a row dated that
   * Monday (at midnight) counts only when the query runs exactly at midnight.
   */
  lemma WeekWindow(now: DateTime, d: Date)
    requires Valid(now.date) && Valid(d)
    ensures Ordinal(StartOfWeek(now.date)) == Ordinal(now.date) - Weekday(now.date)
    ensures Selects(Since(DateTime(StartOfWeek(now.date), now.time)), d) <==>
      Ordinal(d) > Ordinal(now.date) - Weekday(now.date) ||
      (Ordinal(d) == Ordinal(now.date) - Weekday(now.date) && now.time == 0)
  {
    var s := StartOfWeek(now.date);
    assert Ordinal(s) == Ordinal(now.date) - Weekday(now.date) by {
      MondayExists(now.date);
      AddDaysOrdinal(now.date, -Weekday(now.date));
    }
    SinceWindow(s, now.time, d);
  }

  lemma SinceWindow(s: Date, t: nat, d: Date)
    requires Valid(s) && Valid(d)
    ensures Selects(Since(DateTime(s, t)), d) <==> Ordinal(d) > Ordinal(s) || (Ordinal(d) == Ordinal(s) && t == 0)
  {
  }

  /**
   * `projected_spending()`: this month's money divided by the day of the
   * month and multiplied by the month's length; the month-length computation
   * raises OverflowError in December of year 1.
   */
  method ProjectedSpending(ws: InMemoryWorksheet, now: DateTime) returns (r: Result<real>)
    requires Valid(now.date)
    ensures r == Projection(PeriodTotal(DataRows(ws.rows), InMonth(now.date.year, now.date.month)), now.date)
  {
    var all := ws.GetAllValues();
    var today := now.date;
    var soFar := SumWhere(DataRows(all), InMonth(today.year, today.month));
    r := Project(soFar, today);
  }

  /** The projection for money `soFar` spent by `today` in its month. */
  function Projection(soFar: real, today: Date): (r: Result<real>)
    requires Valid(today)
  {
    if today.year == 1 && today.month == 12 then Raised("OverflowError")
    else Ok(Scale(DailyAverage(soFar, today.day), MonthLength(today.year, today.month)))
  }

  /** `total / today.day`. */
  function DailyAverage(total: real, day: int): real
    requires day >= 1
  {
    total / (day as real)
  }

  /** `daily_avg * days_in_month`. */
  function Scale(avg: real, days: int): real {
    avg * (days as real)
  }

  /** The tail of `projected_spending`: the daily average scaled to the month as computed there. */
  method Project(soFar: real, today: Date) returns (r: Result<real>)
    requires Valid(today)
    ensures r == Projection(soFar, today)
  {
    var daysInMonth := DaysInMonthAsWritten(today.year, today.month);
    DaysInMonthCorrect(today.year, today.month);
    if daysInMonth.None? {
      return Raised("OverflowError");
    }
    var dailyAvg := DailyAverage(soFar, today.day);
    r := Ok(Scale(dailyAvg, daysInMonth.value));
  }

  /** Spending at the same daily rate all month: the projection is the rate times the month's length. */
  lemma ProjectionOfSteadyRate(rate: real, today: Date)
    requires Valid(today) && !(today.year == 1 && today.month == 12)
    ensures Projection(rate * (today.day as real), today) == Ok(rate * (MonthLength(today.year, today.month) as real))
  {
    AverageOfSteadyRate(rate, today.day);
  }

  /** Spending `rate` on each of `day` days averages to `rate`. */
  lemma AverageOfSteadyRate(rate: real, day: int)
    requires day >= 1
    ensures DailyAverage(rate * (day as real), day) == rate
  {
  }

  /** `weekend_vs_weekday()`: the money of Saturday and Sunday rows, and of the other rows. */
  method WeekendVsWeekday(ws: InMemoryWorksheet) returns (weekend: real, weekday: real)
    ensures weekend == PeriodTotal(DataRows(ws.rows), Weekend(true))
    ensures weekday == PeriodTotal(DataRows(ws.rows), Weekend(false))
  {
    var all := ws.GetAllValues();
    var rows := DataRows(all);
    weekend, weekday := 0.0, 0.0;
    for i := 0 to |rows|
      invariant weekend == PeriodTotal(rows[..i], Weekend(true))
      invariant weekday == PeriodTotal(rows[..i], Weekend(false))
    {
      PeriodTotalStep(rows, i, Weekend(true));
      PeriodTotalStep(rows, i, Weekend(false));
      var row := rows[i];
      if |row| == 0 {
        continue;
      }
      var date := ParseMdY(row[0]);
      if date.None? {
        continue;
      }
      var isWeekend := Weekday(date.value) >= 5;
      DatedShares(row, date.value, isWeekend);
      if isWeekend {
        weekend := AddRowAmounts(weekend, row, AmountIdx);
      } else {
        weekday := AddRowAmounts(weekday, row, AmountIdx);
      }
    }
    assert rows[..|rows|] == rows;
  }

  /** A dated row goes wholly to the side its weekday picks and adds nothing to the other. */
  lemma DatedShares(row: seq<string>, d: Date, isWeekend: bool)
    requires |row| > 0 && ParseMdY(row[0]) == Some(d) && isWeekend == (Weekday(d) >= 5)
    ensures RowShare(row, Weekend(isWeekend)) == RowAmount(row)
    ensures RowShare(row, Weekend(!isWeekend)) == 0.0
  {
    assert RowDate(row) == Some(d);
    ShareSides(Some(d), RowAmount(row), isWeekend);
  }

  lemma ShareSides(date: Option<Date>, amount: real, w: bool)
    requires date.Some? && Valid(date.value) && w == (Weekday(date.value) >= 5)
    ensures ShareOf(date, amount, Weekend(w)) == amount && ShareOf(date, amount, Weekend(!w)) == 0.0
  {
  }

  /** Every dated row is either a weekend row or a weekday row, never both. */
  lemma {:induction false} WeekendPartition(rows: Grid)
    ensures PeriodTotal(rows, Weekend(true)) + PeriodTotal(rows, Weekend(false)) == PeriodTotal(rows, AnyDay)
  {
    if rows != [] {
      WeekendPartition(rows[..|rows| - 1]);
      RowSharePartition(rows[|rows| - 1]);
    }
  }

  /** A row counts once: as a weekend row or as a weekday row, exactly when it is dated. */
  lemma RowSharePartition(row: seq<string>)
    ensures RowShare(row, Weekend(true)) + RowShare(row, Weekend(false)) == RowShare(row, AnyDay)
  {
    SharePartition(RowDate(row), RowAmount(row));
  }

  lemma SharePartition(date: Option<Date>, amount: real)
    requires date.Some? ==> Valid(date.value)
    ensures ShareOf(date, amount, Weekend(true)) + ShareOf(date, amount, Weekend(false)) == ShareOf(date, amount, AnyDay)
  {
  }

  /** The days of month `m` of year `y` on which some row is dated. */
  function SpendDays(rows: Grid, y: int, m: int): (days: set<int>)
    ensures forall k :: k in days ==> 1 <= k <= 31
  {
    if rows == [] then {}
    else
      var rest := SpendDays(rows[..|rows| - 1], y, m);
      match RowDate(rows[|rows| - 1])
      case Some(d) => if d.year == y && d.month == m then rest + {d.day} else rest
      case None => rest
  }

  /** `[day for day in range(1, n + 1) if day not in spent]`. */
  function NoSpendList(spent: set<int>, n: int): seq<int> {
    if n < 1 then [] else NoSpendList(spent, n - 1) + (if n in spent then [] else [n])
  }

  /**
   * `no_spend_days()`: the days of this month up to today on which no row is
   * dated, and how many there are; OverflowError in December of year 1, where
   * the (otherwise unused) month length is computed.
   */
  method NoSpendDays(ws: InMemoryWorksheet, now: DateTime) returns (r: Result<(int, seq<int>)>)
    requires Valid(now.date)
    ensures now.date.year == 1 && now.date.month == 12 ==> r == Raised("OverflowError")
    ensures !(now.date.year == 1 && now.date.month == 12) ==>
      var days := NoSpendList(SpendDays(DataRows(ws.rows), now.date.year, now.date.month), now.date.day);
      r == Ok((|days|, days))
  {
    var all := ws.GetAllValues();
    var rows := DataRows(all);
    var today := now.date;
    var daysWithExpense: set<int> := {};
    for i := 0 to |rows|
      invariant daysWithExpense == SpendDays(rows[..i], today.year, today.month)
    {
      assert rows[..i + 1][..i] == rows[..i];
      var row := rows[i];
      if |row| == 0 {
        continue;
      }
      var date := ParseMdY(row[0]);
      if date.None? {
        continue;
      }
      if date.value.month == today.month && date.value.year == today.year {
        daysWithExpense := daysWithExpense + {date.value.day};
      }
    }
    assert rows[..|rows|] == rows;
    var daysInMonth := DaysInMonthAsWritten(today.year, today.month);
    DaysInMonthCorrect(today.year, today.month);
    if daysInMonth.None? {
      return Raised("OverflowError");
    }
    var noSpend := NoSpendList(daysWithExpense, today.day);
    r := Ok((|noSpend|, noSpend));
  }

  /** The no-spend list holds, in increasing order, exactly the days 1..n not in `spent`. */
  lemma {:induction false} NoSpendListMeaning(spent: set<int>, n: int)
    ensures var days := NoSpendList(spent, n);
      (forall k :: k in days <==> 1 <= k <= n && k !in spent) &&
      (forall i, j :: 0 <= i < j < |days| ==> days[i] < days[j])
  {
    if n >= 1 {
      NoSpendListMeaning(spent, n - 1);
      var prev := NoSpendList(spent, n - 1);
      assert forall i :: 0 <= i < |prev| ==> prev[i] in prev;
    }
  }

  /** With the spending days up to n, the no-spend days make up all n days. */
  lemma {:induction false} NoSpendCount(spent: set<int>, n: int)
    requires n >= 0
    ensures |NoSpendList(spent, n)| + |set k | k in spent && 1 <= k <= n| == n
  {
    if n >= 1 {
      NoSpendCount(spent, n - 1);
      var below := set k | k in spent && 1 <= k <= n - 1;
      var upto := set k | k in spent && 1 <= k <= n;
      if n in spent {
        assert upto == below + {n};
        assert n !in below;
      } else {
        assert upto == below;
      }
    }
  }
}
