/**
 * The per-cell queries of sheets_utils.py: `largest_single_expense` and
 * `top_n_expenses`. Both visit the data rows in order and, within a row, the
 * amount columns B, I, P, X (list indices 1, 8, 15, 23), skipping an index
 * the row does not reach.
 */
module Ranking {
  import opened Wrappers
  import opened Money
  import opened Sheet
  import opened Ledger

  /** An amount and the row it was read from. */
  type Expense = (real, seq<string>)

  /** The list indices of the amount columns B, I, P, X. */
  const AmountIdx: seq<int> := [1, 8, 15, 23]

  /** The amounts of one row at the given indices, in order, where the row reaches them. */
  function RowCells(row: seq<string>, idxs: seq<int>): seq<Expense> {
    if idxs == [] then []
    else
      var idx := idxs[|idxs| - 1];
      RowCells(row, idxs[..|idxs| - 1]) + (if 0 <= idx < |row| then [(CleanMoney(row[idx]), row)] else [])
  }

  /** One more index: the row's cells grow by the cell at that index, if the row reaches it. */
  lemma RowCellsStep(row: seq<string>, idxs: seq<int>, j: int)
    requires 0 <= j < |idxs|
    ensures RowCells(row, idxs[..j + 1]) ==
      RowCells(row, idxs[..j]) + (if 0 <= idxs[j] < |row| then [(CleanMoney(row[idxs[j]]), row)] else [])
  {
    assert idxs[..j + 1][..j] == idxs[..j];
  }

  /** The accumulated list after one more index, as `acc + cells` reassociated. */
  lemma AppendCellsStep(acc: seq<Expense>, row: seq<string>, idxs: seq<int>, j: int)
    requires 0 <= j < |idxs|
    ensures !(0 <= idxs[j] < |row|) ==> acc + RowCells(row, idxs[..j + 1]) == acc + RowCells(row, idxs[..j])
    ensures 0 <= idxs[j] < |row| ==>
      acc + RowCells(row, idxs[..j + 1]) == acc + RowCells(row, idxs[..j]) + [(CleanMoney(row[idxs[j]]), row)]
  {
    RowCellsStep(row, idxs, j);
    Concat3(acc, RowCells(row, idxs[..j]), if 0 <= idxs[j] < |row| then [(CleanMoney(row[idxs[j]]), row)] else []);
  }

  // Sequence facts stated generically, so that proving them never looks inside the parsed amounts.
  lemma Concat3<T>(a: seq<T>, b: seq<T>, c: seq<T>)
    ensures a + (b + c) == a + b + c
  {
  }

  /** Every amount cell of the rows, row by row. */
  function Cells(rows: Grid): seq<Expense> {
    if rows == [] then [] else Cells(rows[..|rows| - 1]) + RowCells(rows[|rows| - 1], AmountIdx)
  }

  // ---------------------------------------------------------------- largest

  /** The running (max_val, max_row): a cell replaces it only when strictly larger. */
  function Step(st: (real, Option<seq<string>>), c: Expense): (real, Option<seq<string>>) {
    if c.0 > st.0 then (c.0, Some(c.1)) else st
  }

  /** The running maximum after visiting `cells` from `st`. */
  function Scan(st: (real, Option<seq<string>>), cells: seq<Expense>): (real, Option<seq<string>>) {
    if cells == [] then st else Step(Scan(st, cells[..|cells| - 1]), cells[|cells| - 1])
  }

  /** What `largest_single_expense` returns for the cells: the scan from (0.0, None). */
  function Largest(cells: seq<Expense>): (real, Option<seq<string>>) {
    Scan((0.0, None), cells)
  }

  lemma {:induction false} ScanAppend(st: (real, Option<seq<string>>), a: seq<Expense>, b: seq<Expense>)
    ensures Scan(st, a + b) == Scan(Scan(st, a), b)
  {
    if b != [] {
      assert (a + b)[..|a + b| - 1] == a + b[..|b| - 1];
      ScanAppend(st, a, b[..|b| - 1]);
    } else {
      assert a + b == a;
    }
  }

  lemma ScanOne(st: (real, Option<seq<string>>), c: Expense)
    ensures Scan(st, [c]) == Step(st, c)
  {
    assert [c][..0] == [];
  }

  /** The running maximum after one more index of a row. */
  lemma ScanRowStep(st: (real, Option<seq<string>>), row: seq<string>, idxs: seq<int>, j: int)
    requires 0 <= j < |idxs|
    ensures 0 <= idxs[j] < |row| ==>
      Scan(st, RowCells(row, idxs[..j + 1])) == Step(Scan(st, RowCells(row, idxs[..j])), (CleanMoney(row[idxs[j]]), row))
    ensures !(0 <= idxs[j] < |row|) ==>
      Scan(st, RowCells(row, idxs[..j + 1])) == Scan(st, RowCells(row, idxs[..j]))
  {
    RowCellsStep(row, idxs, j);
    var before := RowCells(row, idxs[..j]);
    if 0 <= idxs[j] < |row| {
      var c := (CleanMoney(row[idxs[j]]), row);
      ScanAppend(st, before, [c]);
      ScanOne(Scan(st, before), c);
    } else {
      assert before + [] == before;
    }
  }

  /** The inner loop over one row's amount columns. */
  method ScanRow(maxVal: real, maxRow: Option<seq<string>>, row: seq<string>, idxs: seq<int>)
    returns (val: real, best: Option<seq<string>>)
    ensures (val, best) == Scan((maxVal, maxRow), RowCells(row, idxs))
  {
    val, best := maxVal, maxRow;
    for j := 0 to |idxs|
      invariant (val, best) == Scan((maxVal, maxRow), RowCells(row, idxs[..j]))
    {
      ScanRowStep((maxVal, maxRow), row, idxs, j);
      var idx := idxs[j];
      if !(0 <= idx < |row|) {
        continue;
      }
      var amt := CleanMoney(row[idx]);
      if amt > val {
        val := amt;
        best := Some(row);
      }
    }
    assert idxs[..|idxs|] == idxs;
  }

  /** `largest_single_expense()`. */
  method LargestSingleExpense(ws: InMemoryWorksheet) returns (maxVal: real, maxRow: Option<seq<string>>)
    ensures (maxVal, maxRow) == Largest(Cells(DataRows(ws.rows)))
  {
    var all := ws.GetAllValues();
    var rows := DataRows(all);
    maxVal := 0.0;
    maxRow := None;
    for i := 0 to |rows|
      invariant (maxVal, maxRow) == Largest(Cells(rows[..i]))
    {
      assert rows[..i + 1][..i] == rows[..i];
      ScanAppend((0.0, None), Cells(rows[..i]), RowCells(rows[i], AmountIdx));
      maxVal, maxRow := ScanRow(maxVal, maxRow, rows[i], AmountIdx);
    }
    assert rows[..|rows|] == rows;
  }

  /**
   * What the running maximum means: the value is at least 0 and at least every
   * cell; no row is reported exactly when no cell is positive, and the value is
   * then 0; otherwise the reported row is that of the first cell holding the maximum.
   */
  lemma {:induction false} LargestIsFirstMax(cells: seq<Expense>)
    ensures var (v, r) := Largest(cells);
      v >= 0.0 &&
      (forall k :: 0 <= k < |cells| ==> cells[k].0 <= v) &&
      (r == None <==> forall k :: 0 <= k < |cells| ==> cells[k].0 <= 0.0) &&
      (r == None ==> v == 0.0) &&
      (r.Some? ==> exists k :: 0 <= k < |cells| && cells[k] == (v, r.value) &&
                     forall j :: 0 <= j < k ==> cells[j].0 < v)
  {
    if cells != [] {
      var init := cells[..|cells| - 1];
      LargestIsFirstMax(init);
      var (v0, r0) := Largest(init);
      var c := cells[|cells| - 1];
      assert forall k :: 0 <= k < |init| ==> cells[k] == init[k];
      if c.0 > v0 {
        assert cells[|cells| - 1] == c;
      } else if r0.Some? {
        var k :| 0 <= k < |init| && init[k] == (v0, r0.value) && forall j :: 0 <= j < k ==> init[j].0 < v0;
        assert cells[k] == (v0, r0.value);
      }
    }
  }

  // ------------------------------------------------------------------ top n

  /** Non-increasing by amount. */
  predicate SortedDesc(s: seq<Expense>) {
    forall i, j :: 0 <= i < j < |s| ==> s[i].0 >= s[j].0
  }

  /** The entries with amount `v`, in order. */
  function WithAmount(s: seq<Expense>, v: real): seq<Expense> {
    if s == [] then [] else (if s[0].0 == v then [s[0]] else []) + WithAmount(s[1..], v)
  }

  /** Put `x` before the first entry that is not larger, so it stays ahead of equal entries. */
  function Insert(x: Expense, t: seq<Expense>): seq<Expense> {
    if t == [] || x.0 >= t[0].0 then [x] + t else [t[0]] + Insert(x, t[1..])
  }

  /** `list.sort(reverse=True, key=amount)`: the stable sort from largest to smallest amount. */
  function SortDesc(s: seq<Expense>): seq<Expense> {
    if s == [] then [] else Insert(s[0], SortDesc(s[1..]))
  }

  /** Python's `s[:n]`, a negative `n` counting from the end. */
  function Take<T>(s: seq<T>, n: int): (r: seq<T>)
    ensures n >= 0 ==> |r| == (if n < |s| then n else |s|)
    ensures n < 0 ==> |r| == (if |s| + n > 0 then |s| + n else 0)
    ensures r == s[..|r|]
  {
    if n >= 0 then (if n < |s| then s[..n] else s)
    else if |s| + n > 0 then s[..|s| + n] else []
  }

  lemma {:induction false} InsertPerm(x: Expense, t: seq<Expense>)
    ensures multiset(Insert(x, t)) == multiset([x] + t)
  {
    if !(t == [] || x.0 >= t[0].0) {
      InsertPerm(x, t[1..]);
      assert t == [t[0]] + t[1..];
    }
  }

  lemma {:induction false} InsertBound(x: Expense, t: seq<Expense>, b: real)
    requires x.0 <= b && forall k :: 0 <= k < |t| ==> t[k].0 <= b
    ensures forall k :: 0 <= k < |Insert(x, t)| ==> Insert(x, t)[k].0 <= b
  {
    if !(t == [] || x.0 >= t[0].0) {
      InsertBound(x, t[1..], b);
    }
  }

  lemma {:induction false} InsertSorted(x: Expense, t: seq<Expense>)
    requires SortedDesc(t)
    ensures SortedDesc(Insert(x, t))
  {
    if !(t == [] || x.0 >= t[0].0) {
      InsertSorted(x, t[1..]);
      InsertBound(x, t[1..], t[0].0);
    }
  }

  lemma {:induction false} InsertStable(x: Expense, t: seq<Expense>, v: real)
    ensures WithAmount(Insert(x, t), v) == WithAmount([x] + t, v)
  {
    if !(t == [] || x.0 >= t[0].0) {
      InsertStable(x, t[1..], v);
      assert ([t[0]] + Insert(x, t[1..]))[1..] == Insert(x, t[1..]);
      assert ([x] + t[1..])[1..] == t[1..];
      assert ([x] + t)[1..] == t;
      assert t[1..] == t[1..];
    }
  }

  /** The sort orders by amount, keeps every entry, and keeps equal amounts in their original order. */
  lemma {:induction false} SortDescCorrect(s: seq<Expense>)
    ensures SortedDesc(SortDesc(s))
    ensures multiset(SortDesc(s)) == multiset(s)
    ensures forall v :: WithAmount(SortDesc(s), v) == WithAmount(s, v)
  {
    if s != [] {
      SortDescCorrect(s[1..]);
      InsertPerm(s[0], SortDesc(s[1..]));
      InsertSorted(s[0], SortDesc(s[1..]));
      assert s == [s[0]] + s[1..];
      forall v
        ensures WithAmount(SortDesc(s), v) == WithAmount(s, v)
      {
        InsertStable(s[0], SortDesc(s[1..]), v);
        assert ([s[0]] + SortDesc(s[1..]))[1..] == SortDesc(s[1..]);
      }
    }
  }

  /** The inner loop of `top_n_expenses`: append (amount, row) for each amount column the row reaches. */
  method AppendRowCells(acc: seq<Expense>, row: seq<string>, idxs: seq<int>) returns (expenses: seq<Expense>)
    ensures expenses == acc + RowCells(row, idxs)
  {
    expenses := acc;
    for j := 0 to |idxs|
      invariant expenses == acc + RowCells(row, idxs[..j])
    {
      AppendCellsStep(acc, row, idxs, j);
      var idx := idxs[j];
      if !(0 <= idx < |row|) {
        continue;
      }
      expenses := expenses + [(CleanMoney(row[idx]), row)];
    }
    assert idxs[..|idxs|] == idxs;
  }

  /** The outer loop of `top_n_expenses`: the amount cells of every row, in order. */
  method CollectCells(rows: Grid) returns (expenses: seq<Expense>)
    ensures expenses == Cells(rows)
  {
    expenses := [];
    for i := 0 to |rows|
      invariant expenses == Cells(rows[..i])
    {
      assert rows[..i + 1][..i] == rows[..i];
      expenses := AppendRowCells(expenses, rows[i], AmountIdx);
    }
    assert rows[..|rows|] == rows;
  }

  /** `top_n_expenses(n)`: all amount cells, sorted from largest, the first `n` of them. */
  method TopNExpenses(ws: InMemoryWorksheet, n: int) returns (top: seq<Expense>)
    ensures top == Take(SortDesc(Cells(DataRows(ws.rows))), n)
  {
    var all := ws.GetAllValues();
    var expenses := CollectCells(DataRows(all));
    expenses := SortDesc(expenses);
    top := Take(expenses, n);
  }

  /**
   * The top-n list: min(n, number of cells) entries for n >= 0, sorted from
   * largest, each drawn from the cells, and none smaller than a cell left out.
   */
  lemma TopNMeaning(cells: seq<Expense>, n: int)
    requires n >= 0
    ensures var sorted := SortDesc(cells); var top := Take(sorted, n);
      |top| == (if n < |cells| then n else |cells|) &&
      SortedDesc(top) &&
      multiset(top) <= multiset(cells) &&
      forall i, j :: 0 <= i < |top| <= j < |sorted| ==> top[i].0 >= sorted[j].0
  {
    SortDescCorrect(cells);
    var sorted := SortDesc(cells);
    assert |sorted| == |cells| by {
      assert |multiset(sorted)| == |multiset(cells)|;
    }
    var top := Take(sorted, n);
    SortedPrefix(sorted, |top|);
  }

  /** A prefix of a list sorted from largest is sorted, drawn from the list, and no smaller than the rest. */
  lemma SortedPrefix(sorted: seq<Expense>, k: nat)
    requires SortedDesc(sorted) && k <= |sorted|
    ensures SortedDesc(sorted[..k])
    ensures multiset(sorted[..k]) <= multiset(sorted)
    ensures forall i, j :: 0 <= i < k <= j < |sorted| ==> sorted[..k][i].0 >= sorted[j].0
  {
    assert sorted == sorted[..k] + sorted[k..];
    assert multiset(sorted) == multiset(sorted[..k]) + multiset(sorted[k..]);
  }
}
