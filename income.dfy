/**
 * The income-sheet queries of sheets_utils.py. Each one looks a label up with
 * `find` (the first cell, row by row, whose lower-cased text contains the
 * lower-cased label) and reads a cell to its right with `cell`, which, on the
 * in-memory worksheet, grows the grid to reach that cell. A label that is not
 * on the sheet gives the query's fallback value.
 */
module Income {
  import opened Wrappers
  import opened PyText
  import opened Money
  import opened Sheet

  const RentLabel := "Rent"
  const UtilitiesLabel := "SMUD"
  const StudentLoanLabel := "Student Loan Payment"
  const IncomeLabel := "Monthly Income:"
  const MarginsLabel := "Margins:"
  /** `calculate_burn_rate` searches with a trailing space, `average_daily_spend` without. */
  const BurnRateLabel := "\U{1F525} Burn rate: "
  const BurnRateShortLabel := "\U{1F525} Burn rate:"

  /** The grid after `cell(found.row, found.col + offset)`, or unchanged when the label is missing. */
  function AfterLookup(rows: Grid, tag: string, offset: nat): Grid {
    match FirstMatch(rows, tag)
    case Some(c) => FirstMatchInRange(rows, tag); Grown(rows, c.row, c.col + offset)
    case None => rows
  }

  lemma FirstMatchInRange(rows: Grid, tag: string)
    ensures FirstMatch(rows, tag).Some? ==>
      var c := FirstMatch(rows, tag).value;
      1 <= c.row <= |rows| && 1 <= c.col <= |rows[c.row - 1]| &&
      c.value == rows[c.row - 1][c.col - 1] && Contains(Lower(c.value), Lower(tag))
  {
  }

  /** The text `offset` columns right of the label's cell. */
  function RightOf(rows: Grid, c: Cell, offset: nat): string {
    CellValue(rows, c.row, c.col + offset)
  }

  /**
   * `cell = ws.find(tag)` then `ws.cell(cell.row, cell.col + offset).value`:
   * the found cell and the text right of it, or nothing when `find` raises.
   */
  method LookupRight(ws: InMemoryWorksheet, tag: string, offset: nat) returns (found: Option<Cell>, right: string)
    modifies ws
    ensures found == FirstMatch(old(ws.rows), tag)
    ensures found.Some? ==> right == RightOf(old(ws.rows), found.value, offset)
    ensures ws.rows == AfterLookup(old(ws.rows), tag, offset)
  {
    FirstMatchInRange(ws.rows, tag);
    var r := ws.Find(tag);
    if r.Raised? {
      return None, "";
    }
    var cell := r.value;
    var rightCell := ws.GetCell(cell.row, cell.col + offset);
    return Some(cell), rightCell.value;
  }

  // ------------------------------------------------------------ paid checks

  /**
   * `check_rent_paid` and its siblings: (True, amount) when the cell right of
   * the label is not empty and reads as a positive amount, else (False, 0.0).
   */
  function PaidStatus(rows: Grid, tag: string): (r: (bool, real))
    ensures r.0 <==> r.1 > 0.0
    ensures !r.0 ==> r.1 == 0.0
    ensures r.0 ==> (FirstMatch(rows, tag).Some? &&
                     r.1 == CleanMoney(RightOf(rows, FirstMatch(rows, tag).value, 1)))
  {
    match FirstMatch(rows, tag)
    case None => (false, 0.0)
    case Some(c) =>
      var v := RightOf(rows, c, 1);
      if v != "" && CleanMoney(v) > 0.0 then (true, CleanMoney(v)) else (false, 0.0)
  }

  method CheckPaid(ws: InMemoryWorksheet, tag: string) returns (paid: bool, amount: real)
    modifies ws
    ensures (paid, amount) == PaidStatus(old(ws.rows), tag)
    ensures ws.rows == AfterLookup(old(ws.rows), tag, 1)
  {
    var found, amountCell := LookupRight(ws, tag, 1);
    if found.Some? && amountCell != "" {
      var cleaned := CleanMoney(amountCell);
      if cleaned > 0.0 {
        return true, cleaned;
      }
    }
    return false, 0.0;
  }

  /** `check_rent_paid()`. */
  method CheckRentPaid(ws: InMemoryWorksheet) returns (paid: bool, amount: real)
    modifies ws
    ensures (paid, amount) == PaidStatus(old(ws.rows), RentLabel)
  {
    paid, amount := CheckPaid(ws, RentLabel);
  }

  /** `check_utilities_paid()`. */
  method CheckUtilitiesPaid(ws: InMemoryWorksheet) returns (paid: bool, amount: real)
    modifies ws
    ensures (paid, amount) == PaidStatus(old(ws.rows), UtilitiesLabel)
  {
    paid, amount := CheckPaid(ws, UtilitiesLabel);
  }

  /** `check_student_loan_paid()`. */
  method CheckStudentLoanPaid(ws: InMemoryWorksheet) returns (paid: bool, amount: real)
    modifies ws
    ensures (paid, amount) == PaidStatus(old(ws.rows), StudentLoanLabel)
  {
    paid, amount := CheckPaid(ws, StudentLoanLabel);
  }

  /** A positive amount written with `str(x)` right of the label reads back as paid with that amount. */
  lemma PaidFromRecordedAmount(rows: Grid, tag: string, x: real)
    requires FirstMatch(rows, tag).Some?
    requires RightOf(rows, FirstMatch(rows, tag).value, 1) == ReprFloat(x)
    requires x > 0.0 && exists p :: 1 <= p <= MaxPlaces && HasPlaces(x, p)
    ensures PaidStatus(rows, tag) == (true, x)
  {
    ReprFloatShape(x);
    CleanMoneyOfRepr(x);
  }

  /** A cell right of the label holding no digit never reads as paid. */
  lemma NotPaidWithoutDigits(rows: Grid, tag: string)
    requires FirstMatch(rows, tag).Some?
    requires NoDigit(RightOf(rows, FirstMatch(rows, tag).value, 1))
    ensures PaidStatus(rows, tag) == (false, 0.0)
  {
    CleanMoneyNoDigits(RightOf(rows, FirstMatch(rows, tag).value, 1));
  }

  // --------------------------------------------------------- income, margins

  /** `total_income()`: the stripped text right of "Monthly Income:" as money, 0.0 when the label is missing. */
  function IncomeValue(rows: Grid): real {
    match FirstMatch(rows, IncomeLabel)
    case None => 0.0
    case Some(c) => CleanMoney(Strip(RightOf(rows, c, 1)))
  }

  method TotalIncome(ws: InMemoryWorksheet) returns (income: real)
    modifies ws
    ensures income == IncomeValue(old(ws.rows))
    ensures ws.rows == AfterLookup(old(ws.rows), IncomeLabel, 1)
  {
    var found, incomeCell := LookupRight(ws, IncomeLabel, 1);
    if found.None? {
      return 0.0;
    }
    var incomeVal := Strip(incomeCell);
    income := CleanMoney(incomeVal);
  }

  /** `remaining_budget()`: the money two columns right of "Margins:", 0.0 when the label is missing. */
  function MarginsValue(rows: Grid): real {
    match FirstMatch(rows, MarginsLabel)
    case None => 0.0
    case Some(c) => CleanMoney(RightOf(rows, c, 2))
  }

  method RemainingBudget(ws: InMemoryWorksheet) returns (budget: real)
    modifies ws
    ensures budget == MarginsValue(old(ws.rows))
    ensures ws.rows == AfterLookup(old(ws.rows), MarginsLabel, 2)
  {
    var found, marginCell := LookupRight(ws, MarginsLabel, 2);
    if found.None? {
      return 0.0;
    }
    budget := CleanMoney(marginCell);
  }

  /** An amount written with `str(x)` right of "Monthly Income:" reads back as exactly that amount. */
  lemma IncomeReadsBack(rows: Grid, x: real)
    requires exists p :: 1 <= p <= MaxPlaces && HasPlaces(x, p)
    requires FirstMatch(rows, IncomeLabel).Some? && RightOf(rows, FirstMatch(rows, IncomeLabel).value, 1) == ReprFloat(x)
    ensures IncomeValue(rows) == x
  {
    StripRepr(x);
    CleanMoneyOfRepr(x);
  }

  lemma StripRepr(x: real)
    ensures Strip(ReprFloat(x)) == ReprFloat(x)
  {
    var s := ReprFloat(x);
    ReprFloatShape(x);
    assert !IsSpace(s[0]) && !IsSpace(s[|s| - 1]);
    StripUnchanged(s);
  }

  /** An amount written with `str(x)` two columns right of "Margins:" reads back as exactly that amount. */
  lemma MarginsReadBack(rows: Grid, x: real)
    requires exists p :: 1 <= p <= MaxPlaces && HasPlaces(x, p)
    requires FirstMatch(rows, MarginsLabel).Some? && RightOf(rows, FirstMatch(rows, MarginsLabel).value, 2) == ReprFloat(x)
    ensures MarginsValue(rows) == x
  {
    CleanMoneyOfRepr(x);
  }

  // -------------------------------------------------------------- burn rate

  /** The found cell holds every label character that is neither a letter nor changed by lower-casing. */
  lemma FoundHoldsColon(rows: Grid, tag: string)
    requires FirstMatch(rows, tag).Some? && ':' in tag
    ensures ':' in FirstMatch(rows, tag).value.value
  {
    FirstMatchInRange(rows, tag);
    ContainsLowerKeeps(FirstMatch(rows, tag).value.value, tag, ':');
  }

  /**
   * `calculate_burn_rate()`: the stripped text between the first and second
   * ":" of the "🔥 Burn rate: " cell, and the text two columns right of it;
   * (None, None) when the label is missing.
   */
  function BurnRate(rows: Grid): (Option<string>, Option<string>) {
    match FirstMatch(rows, BurnRateLabel)
    case None => (None, None)
    case Some(c) =>
      FoundHoldsColon(rows, BurnRateLabel);
      (Some(Strip(SecondField(c.value, ':'))), Some(RightOf(rows, c, 2)))
  }

  method CalculateBurnRate(ws: InMemoryWorksheet) returns (rate: Option<string>, desc: Option<string>)
    modifies ws
    ensures (rate, desc) == BurnRate(old(ws.rows))
    ensures ws.rows == AfterLookup(old(ws.rows), BurnRateLabel, 2)
  {
    // The split cannot fail (see FoundHoldsColon), so taking it after the
    // `cell` call, rather than before as the query does, changes nothing.
    ghost var rows0 := ws.rows;
    var found, descCell := LookupRight(ws, BurnRateLabel, 2);
    if found.None? {
      return None, None;
    }
    FoundHoldsColon(rows0, BurnRateLabel);
    var burnRateVal := Strip(SecondField(found.value.value, ':'));
    return Some(burnRateVal), Some(descCell);
  }

  /** `average_daily_spend()`: the stripped text after the first ":" of the "🔥 Burn rate:" cell. */
  function DailySpend(rows: Grid): Option<string> {
    match FirstMatch(rows, BurnRateShortLabel)
    case None => None
    case Some(c) =>
      FoundHoldsColon(rows, BurnRateShortLabel);
      Some(Strip(AfterFirst(c.value, ':')))
  }

  method AverageDailySpend(ws: InMemoryWorksheet) returns (spend: Option<string>)
    ensures spend == DailySpend(ws.rows)
  {
    FirstMatchInRange(ws.rows, BurnRateShortLabel);
    var found := ws.Find(BurnRateShortLabel);
    if found.Raised? {
      return None;
    }
    FoundHoldsColon(ws.rows, BurnRateShortLabel);
    spend := Some(Strip(AfterFirst(found.value.value, ':')));
  }

  /**
   * When both searches land on the same cell and it holds a single ":", the
   * two queries report the same rate: the stripped text after the colon.
   */
  lemma BurnRateAgrees(rows: Grid, c: Cell, before: string, after: string)
    requires FirstMatch(rows, BurnRateLabel) == Some(c) && FirstMatch(rows, BurnRateShortLabel) == Some(c)
    requires c.value == before + ":" + after && ':' !in before && ':' !in after
    ensures BurnRate(rows).0 == DailySpend(rows) == Some(Strip(after))
  {
    assert c.value == before + [':'] + after;
    SecondFieldOf(before, ':', after);
    AfterFirstOf(before, ':', after);
  }
}
