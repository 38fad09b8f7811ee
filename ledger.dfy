/**
 * The column-total queries of sheets_utils.py over the expense sheet:
 * `_sum_column`, `total_for_category`, `highest_expense_category`,
 * `expense_breakdown_percentages` and `total_spent_at_store`.
 *
 * The first two rows of the sheet are headers; data starts at row 3. The
 * amount columns are B, I, P and X (list indices 1, 8, 15, 23), the food and
 * shopping locations Q and Y (indices 16 and 24).
 */
module Ledger {
  import opened Wrappers
  import opened PyText
  import opened Money
  import opened Sheet
  import opened A1
  import Schema

  /** Python's `s[k:]` for k >= 0. */
  function Drop<T>(s: seq<T>, k: nat): (r: seq<T>)
    ensures |r| == if |s| <= k then 0 else |s| - k
    ensures forall i :: 0 <= i < |r| ==> r[i] == s[i + k]
  {
    if |s| <= k then [] else s[k..]
  }

  /** `ws.get_all_values()[2:]`: the rows under the two header rows. */
  function DataRows(all: Grid): Grid {
    Drop(all, 2)
  }

  /** `not v.strip()`: the cell is empty or only whitespace. */
  predicate IsBlank(v: string) {
    Strip(v) == []
  }

  /** What one cell adds to a column sum: nothing if blank, else its `clean_money` value. */
  function CellMoney(v: string): real {
    if IsBlank(v) then 0.0 else CleanMoney(v)
  }

  /** `sum(clean_money(v) for v in values if v.strip())`. */
  function MoneySum(values: seq<string>): real {
    if values == [] then 0.0
    else MoneySum(values[..|values| - 1]) + CellMoney(values[|values| - 1])
  }

  /** `_sum_column(ws, col, start_row)`: the money in column `col` from row `startRow` down. */
  function SumColumn(all: Grid, col: int, startRow: int): real
    requires col >= 1 && startRow >= 1
  {
    MoneySum(Drop(ColumnOf(all, col), startRow - 1))
  }

  /** `clean_money(row[idx])` where the row reaches index `idx`, otherwise nothing. */
  function AmountAt(row: seq<string>, idx: int): real {
    if 0 <= idx < |row| then CleanMoney(row[idx]) else 0.0
  }

  /** The money in list index `idx` of every row. */
  function ColumnTotal(rows: Grid, idx: int): real {
    if rows == [] then 0.0 else ColumnTotal(rows[..|rows| - 1], idx) + AmountAt(rows[|rows| - 1], idx)
  }

  /** A blank cell is worth nothing: it holds no digit, so `clean_money` gives 0.0. */
  lemma BlankIsZero(v: string)
    requires IsBlank(v)
    ensures CleanMoney(v) == 0.0
  {
    StripEmptyIffAllSpace(v);
    CleanMoneyNoDigits(v);
  }

  /**
   * Skipping blank cells does not change a column sum: it is the plain sum of
   * `clean_money` over the cells.
   */
  lemma {:induction false} MoneySumOfColumn(rows: Grid, col: int)
    requires col >= 1
    ensures MoneySum(ColumnOf(rows, col)) == ColumnTotal(rows, col - 1)
  {
    if rows != [] {
      var init := rows[..|rows| - 1];
      MoneySumOfColumn(init, col);
      var c := ColumnOf(rows, col);
      var last := rows[|rows| - 1];
      var v := if col <= |last| then last[col - 1] else "";
      ColumnOfInit(rows, col);
      assert c[|c| - 1] == v;
      MoneySumStep(c, ColumnOf(init, col), v);
      CellMoneyOfRow(last, col);
    }
  }

  /** The column of all rows but the last is the column without its last cell. */
  lemma ColumnOfInit(rows: Grid, col: int)
    requires col >= 1 && rows != []
    ensures ColumnOf(rows, col)[..|rows| - 1] == ColumnOf(rows[..|rows| - 1], col)
  {
    var a, b := ColumnOf(rows, col)[..|rows| - 1], ColumnOf(rows[..|rows| - 1], col);
    forall i | 0 <= i < |a|
      ensures a[i] == b[i]
    {
      assert rows[..|rows| - 1][i] == rows[i];
    }
  }

  /** The last cell adds its own worth to the sum of the cells before it. */
  lemma MoneySumStep(c: seq<string>, init: seq<string>, v: string)
    requires c != [] && c[..|c| - 1] == init && c[|c| - 1] == v
    ensures MoneySum(c) == MoneySum(init) + CellMoney(v)
  {
  }

  /** The cell `col_values` yields for a row adds to the sum what the row holds at that index. */
  lemma CellMoneyOfRow(row: seq<string>, col: int)
    requires col >= 1
    ensures CellMoney(if col <= |row| then row[col - 1] else "") == AmountAt(row, col - 1)
  {
    var v := if col <= |row| then row[col - 1] else "";
    if IsBlank(v) {
      BlankIsZero(v);
    }
  }

  /**
   * `_sum_column` over the data rows (start row 3) is the money in that
   * column summed row by row: the column view and the row view agree.
   */
  lemma SumColumnByRows(all: Grid, col: int)
    requires col >= 1
    ensures SumColumn(all, col, 3) == ColumnTotal(DataRows(all), col - 1)
  {
    assert Drop(ColumnOf(all, col), 2) == ColumnOf(DataRows(all), col);
    MoneySumOfColumn(DataRows(all), col);
  }

  /** Row sums add up over a split of the rows. */
  lemma {:induction false} ColumnTotalAppend(a: Grid, b: Grid, idx: int)
    ensures ColumnTotal(a + b, idx) == ColumnTotal(a, idx) + ColumnTotal(b, idx)
  {
    if b != [] {
      ColumnTotalAppend(a, b[..|b| - 1], idx);
      assert (a + b)[..|a + b| - 1] == a + b[..|b| - 1];
    } else {
      assert a + b == a;
    }
  }

  // ------------------------------------------------------------- categories

  /** The `categories` literal of the column queries: category to amount column letter. */
  const Categories: Schema.Table<string> := [("grocery", "B"), ("gas", "I"), ("food", "P"), ("shopping", "X")]

  /** The letters of that literal are the schema's amount columns, category by category. */
  lemma CategoriesMatchSchema()
    ensures Categories[0].0 == Schema.Config[0].0 && Categories[1].0 == Schema.Config[1].0
    ensures Categories[2].0 == Schema.Config[2].0 && Categories[3].0 == Schema.Config[3].0
    ensures Schema.Get(Schema.Config[0].1.columns, "amount") == Some(Categories[0].1)
    ensures Schema.Get(Schema.Config[1].1.columns, "amount") == Some(Categories[1].1)
    ensures Schema.Get(Schema.Config[2].1.columns, "amount") == Some(Categories[2].1)
    ensures Schema.Get(Schema.Config[3].1.columns, "amount") == Some(Categories[3].1)
  {
    Schema.AnalyticsLetters();
  }

  /** The 1-based column of a one-letter column name. */
  function LetterColumn(letter: string): (c: int)
    requires |letter| == 1 && IsUpperLetter(letter[0])
    ensures 1 <= c <= 26
  {
    letter[0] as int - 'A' as int + 1
  }

  /** For one capital letter this is `column_index_from_string`. */
  lemma LetterColumnIndex(letter: string)
    requires |letter| == 1 && IsUpperLetter(letter[0])
    ensures ColumnIndex(letter) == Ok(LetterColumn(letter))
  {
    assert letter == [letter[0]];
    SingleLetterIndex(letter[0]);
  }

  /** The per-category totals, in the literal's order. */
  function CategoryTotals(all: Grid): (t: seq<(string, real)>)
    ensures |t| == 4 && forall i :: 0 <= i < 4 ==> t[i].0 == Categories[i].0
  {
    seq(4, i requires 0 <= i < 4 => (Categories[i].0, SumColumn(all, LetterColumn(Categories[i].1), 3)))
  }

  lemma CategoryColumns()
    ensures LetterColumn("B") == 2 && LetterColumn("I") == 9
    ensures LetterColumn("P") == 16 && LetterColumn("X") == 24
  {
  }

  /**
   * `total_for_category(category)`: the column total of the lower-cased
   * category's amount column, 0.0 for any other name.
   */
  function TotalForCategory(all: Grid, category: string): (r: real)
    ensures Schema.Get(Categories, Lower(category)).None? ==> r == 0.0
  {
    match Schema.Get(Categories, Lower(category))
    case None => 0.0
    case Some(letter) => SumColumn(all, LetterColumn(letter), 3)
  }

  /**
   * For each of the four categories, `total_for_category` is the money in that
   * category's schema amount column, added up over the data rows.
   */
  lemma TotalForCategoryRows(all: Grid, i: int)
    requires 0 <= i < 4
    ensures TotalForCategory(all, Categories[i].0) ==
      ColumnTotal(DataRows(all), [1, 8, 15, 23][i])
  {
    CategoryColumns();
    var name := Categories[i].0;
    assert Lower(name) == name;
    SumColumnByRows(all, [1, 8, 15, 23][i] + 1);
  }

  /**
   * `highest_expense_category()`: the category totals, then Python's `max` by
   * total, which keeps the first of equal maxima.
   */
  method HighestExpenseCategory(ws: InMemoryWorksheet) returns (category: string, amount: real)
    ensures var t := CategoryTotals(ws.rows);
      exists k :: 0 <= k < 4 && t[k] == (category, amount) &&
        (forall j :: 0 <= j < 4 ==> t[j].1 <= amount) &&
        (forall j :: 0 <= j < k ==> t[j].1 < amount)
  {
    var totals := ComputeTotals(ws);
    var best := FirstMax(totals);
    category, amount := totals[best].0, totals[best].1;
  }

  /** Python's `max(items, key=...)`: the index of the first item with the largest key. */
  method FirstMax(t: seq<(string, real)>) returns (best: int)
    requires |t| > 0
    ensures 0 <= best < |t|
    ensures forall j :: 0 <= j < |t| ==> t[j].1 <= t[best].1
    ensures forall j :: 0 <= j < best ==> t[j].1 < t[best].1
  {
    best := 0;
    for i := 1 to |t|
      invariant 0 <= best < i
      invariant forall j :: 0 <= j < i ==> t[j].1 <= t[best].1
      invariant forall j :: 0 <= j < best ==> t[j].1 < t[best].1
    {
      if t[i].1 > t[best].1 {
        best := i;
      }
    }
  }

  /** The loop filling `category_totals` from the `categories` literal. */
  method ComputeTotals(ws: InMemoryWorksheet) returns (totals: seq<(string, real)>)
    ensures totals == CategoryTotals(ws.rows)
  {
    ghost var t := CategoryTotals(ws.rows);
    totals := [];
    for i := 0 to 4
      invariant totals == t[..i]
    {
      var name, col := Categories[i].0, Categories[i].1;
      var total := SumColumn(ws.rows, LetterColumn(col), 3);
      assert t[i] == (name, total);
      assert t[..i + 1] == t[..i] + [t[i]];
      totals := totals + [(name, total)];
    }
    assert t[..4] == t;
  }

  /** The four totals added up. */
  function GrandTotal(t: seq<(string, real)>): real
    requires |t| == 4
  {
    t[0].1 + t[1].1 + t[2].1 + t[3].1
  }

  /**
   * `expense_breakdown_percentages()`: nothing when the four totals add up to
   * 0, otherwise each category's share of the total in percent, passed
   * through `round(·, 2)` (here the parameter `round2`).
   */
  method BreakdownPercentages(ws: InMemoryWorksheet, round2: real -> real) returns (shares: seq<(string, real)>)
    ensures IsBreakdown(shares, CategoryTotals(ws.rows), round2)
  {
    var totals := ComputeTotals(ws);
    shares := Shares(totals, round2);
  }

  /**
   * `shares` is the breakdown of the four totals: empty exactly when they add
   * up to 0, otherwise each category's rounded percentage of the sum, in order.
   */
  predicate IsBreakdown(shares: seq<(string, real)>, totals: seq<(string, real)>, round2: real -> real)
    requires |totals| == 4
  {
    (shares == [] <==> GrandTotal(totals) == 0.0) &&
    (shares != [] ==>
      (|shares| == 4 &&
       forall i :: 0 <= i < 4 ==>
         shares[i] == (totals[i].0, round2(totals[i].1 / GrandTotal(totals) * 100.0))))
  }

  /** The percentage step: add up the totals; nothing if that is 0, else each share rounded. */
  method Shares(totals: seq<(string, real)>, round2: real -> real) returns (shares: seq<(string, real)>)
    requires |totals| == 4
    ensures IsBreakdown(shares, totals, round2)
  {
    var total := 0.0;
    for i := 0 to 4
      invariant total == SumFirst(totals, i)
    {
      total := total + totals[i].1;
    }
    assert total == GrandTotal(totals) by {
      assert SumFirst(totals, 4) == SumFirst(totals, 3) + totals[3].1;
      assert SumFirst(totals, 3) == SumFirst(totals, 2) + totals[2].1;
      assert SumFirst(totals, 2) == SumFirst(totals, 1) + totals[1].1;
    }
    if total == 0.0 {
      return [];
    }
    shares := [];
    for i := 0 to 4
      invariant |shares| == i
      invariant forall j :: 0 <= j < i ==> shares[j] == (totals[j].0, round2(totals[j].1 / total * 100.0))
    {
      shares := shares + [(totals[i].0, round2(totals[i].1 / total * 100.0))];
    }
  }

  /** The first `n` totals added up. */
  function SumFirst(t: seq<(string, real)>, n: nat): real
    requires n <= |t|
  {
    if n == 0 then 0.0 else SumFirst(t, n - 1) + t[n - 1].1
  }

  /** Before rounding, the four shares of a non-zero total add up to 100 percent. */
  lemma SharesSumTo100(shares: seq<(string, real)>, totals: seq<(string, real)>)
    requires |totals| == 4 && GrandTotal(totals) != 0.0
    requires IsBreakdown(shares, totals, x => x)
    ensures |shares| == 4
    ensures shares[0].1 + shares[1].1 + shares[2].1 + shares[3].1 == 100.0
  {
    var t := GrandTotal(totals);
    assert shares[0].1 == totals[0].1 / t * 100.0;
    assert shares[1].1 == totals[1].1 / t * 100.0;
    assert shares[2].1 == totals[2].1 / t * 100.0;
    assert shares[3].1 == totals[3].1 / t * 100.0;
    assert totals[0].1 / t + totals[1].1 / t + totals[2].1 / t + totals[3].1 / t == t / t;
  }

  // ------------------------------------------------------------------ stores

  /**
   * What one data row adds to `total_spent_at_store`: the food amount (P) if
   * the food location (Q) contains the store, else the shopping amount (X)
   * if the shopping location (Y) does; each section only when the row
   * reaches it.
   */
  function StoreAmount(row: seq<string>, store: string): real {
    if |row| > 16 && Contains(Lower(row[16]), store) then CleanMoney(row[15])
    else if |row| > 24 && Contains(Lower(row[24]), store) then CleanMoney(row[23])
    else 0.0
  }

  function StoreTotal(rows: Grid, store: string): real {
    if rows == [] then 0.0 else StoreTotal(rows[..|rows| - 1], store) + StoreAmount(rows[|rows| - 1], store)
  }

  /** `total_spent_at_store(store)`: one pass over the data rows; a food match skips the shopping check. */
  method TotalSpentAtStore(ws: InMemoryWorksheet, store: string) returns (total: real)
    ensures total == StoreTotal(DataRows(ws.rows), Lower(store))
  {
    var all := ws.GetAllValues();
    var rows := DataRows(all);
    total := 0.0;
    var s := Lower(store);
    for i := 0 to |rows|
      invariant total == StoreTotal(rows[..i], s)
    {
      StoreTotalStep(rows, i, s);
      var row := rows[i];
      if |row| > 16 {
        if Contains(Lower(row[16]), s) {
          total := total + CleanMoney(row[15]);
          continue;
        }
      }
      if |row| > 24 {
        if Contains(Lower(row[24]), s) {
          total := total + CleanMoney(row[23]);
          continue;
        }
      }
    }
    assert rows[..|rows|] == rows;
  }

  /** One more row adds its own amount to the running total. */
  lemma StoreTotalStep(rows: Grid, i: nat, store: string)
    requires i < |rows|
    ensures StoreTotal(rows[..i + 1], store) == StoreTotal(rows[..i], store) + StoreAmount(rows[i], store)
  {
    assert rows[..i + 1][..i] == rows[..i];
    assert rows[..i + 1][i] == rows[i];
  }

  /**
   * A row whose food and shopping locations both name the store adds its food
   * amount only, never both amounts.
   */
  lemma StoreBothSections(row: seq<string>, store: string)
    requires |row| > 24 && Contains(Lower(row[16]), store) && Contains(Lower(row[24]), store)
    ensures StoreAmount(row, store) == CleanMoney(row[15])
  {
  }

  /** The empty store name is in every location, so it takes every food amount of rows that reach Q. */
  lemma StoreEmptyName(row: seq<string>)
    requires |row| > 16
    ensures StoreAmount(row, "") == CleanMoney(row[15])
  {
    ContainsEmpty(Lower(row[16]));
  }

  /** The store total is a sum over rows: it adds up across any split of the rows. */
  lemma {:induction false} StoreTotalAppend(a: Grid, b: Grid, store: string)
    ensures StoreTotal(a + b, store) == StoreTotal(a, store) + StoreTotal(b, store)
  {
    if b != [] {
      StoreTotalAppend(a, b[..|b| - 1], store);
      assert (a + b)[..|a + b| - 1] == a + b[..|b| - 1];
      assert (a + b)[|a + b| - 1] == b[|b| - 1];
    } else {
      assert a + b == a;
    }
  }
}
