/**
 * The in-memory worksheet of the test support code
 * (unit_tests/support/sheets_repo_stub.py): a growable grid of strings with
 * the subset of the gspread worksheet API the bot uses, and the repository
 * stub that installs three such sheets as the process-wide sheet source.
 *
 * Rows and columns are 1-based, as in gspread. The grid is a sequence of rows
 * of possibly different lengths; a cell beyond the end of its row reads as "".
 */
module Sheet {
  import opened Wrappers
  import opened PyText

  type Grid = seq<seq<string>>

  /** What `cell` and `find` return. */
  datatype Cell = Cell(row: int, col: int, value: string)

  /** The text a 1-based position holds, "" where the grid does not reach. */
  function CellValue(rows: Grid, r: int, c: int): string {
    if 1 <= r <= |rows| && 1 <= c <= |rows[r - 1]| then rows[r - 1][c - 1] else ""
  }

  /** `col_values(col)`: one entry per row, "" where the row is too short. */
  function ColumnOf(rows: Grid, col: int): (r: seq<string>)
    requires col >= 1
    ensures |r| == |rows|
    ensures forall i :: 0 <= i < |rows| ==> r[i] == CellValue(rows, i + 1, col)
  {
    seq(|rows|, i requires 0 <= i < |rows| => if col <= |rows[i]| then rows[i][col - 1] else "")
  }

  /** The grid with at least `row` rows (new rows empty). */
  function Padded(rows: Grid, row: int): (r: Grid)
    ensures |r| == (if |rows| >= row then |rows| else row)
    ensures r[..|rows|] == rows
    ensures forall i :: |rows| <= i < |r| ==> r[i] == []
  {
    if |rows| >= row then rows else rows + seq(row - |rows|, _ => [])
  }

  /** The row with at least `col` cells (new cells ""). */
  function Widened(cells: seq<string>, col: int): (r: seq<string>)
    ensures |r| == (if |cells| >= col then |cells| else col)
    ensures r[..|cells|] == cells
    ensures forall j :: |cells| <= j < |r| ==> r[j] == ""
  {
    if |cells| >= col then cells else cells + seq(col - |cells|, _ => "")
  }

  /** The grid after `_ensure_position(row, col)`. */
  function Grown(rows: Grid, row: int, col: int): Grid
    requires row >= 1
  {
    var p := Padded(rows, row);
    p[row - 1 := Widened(p[row - 1], col)]
  }

  /** One more empty row at the end of the padding. */
  lemma GrowRows(start: Grid, m: nat)
    ensures start + seq(m, _ => []) + [[]] == start + seq(m + 1, _ => [])
  {
    assert seq<seq<string>>(m + 1, _ => []) == seq<seq<string>>(m, _ => []) + [[]];
  }

  /** One more empty cell at the end of the widening. */
  lemma GrowCells(cells: seq<string>, k: nat)
    ensures cells + seq(k, _ => "") + [""] == cells + seq(k + 1, _ => "")
  {
    assert seq(k + 1, _ => "") == seq(k, _ => "") + [""];
  }

  /** The grid after `update_cell(row, col, value)`. */
  function Updated(rows: Grid, row: int, col: int, value: string): Grid
    requires row >= 1 && col >= 1
  {
    var g := Grown(rows, row, col);
    GrownReaches(rows, row, col);
    g[row - 1 := g[row - 1][col - 1 := value]]
  }

  /** The grid after `insert_row(values, index)`: `list.insert` at max(index - 1, 0), clamped to the end. */
  function Inserted(rows: Grid, values: seq<string>, index: int): Grid {
    var p := InsertPosition(rows, index);
    rows[..p] + [values] + rows[p..]
  }

  function InsertPosition(rows: Grid, index: int): (p: int)
    ensures 0 <= p <= |rows|
  {
    var i := if index - 1 > 0 then index - 1 else 0;
    if i > |rows| then |rows| else i
  }

  /** Does the text at (r, c) contain the needle, both lower-cased? */
  predicate IsMatch(rows: Grid, needle: string, r: int, c: int) {
    1 <= r <= |rows| && 1 <= c <= |rows[r - 1]| && Contains(Lower(rows[r - 1][c - 1]), Lower(needle))
  }

  /** No cell before (r, c) in row-major order matches. */
  predicate NoMatchBefore(rows: Grid, needle: string, r: int, c: int) {
    forall i, j :: 1 <= i <= |rows| && 1 <= j <= |rows[i - 1]| && (i < r || (i == r && j < c))
      ==> !IsMatch(rows, needle, i, j)
  }

  /** The first index at or after `j` whose lower-cased text contains `low`, or -1. */
  function FirstInRow(row: seq<string>, low: string, j: nat): (k: int)
    requires j <= |row|
    ensures k == -1 || (j <= k < |row| && Contains(Lower(row[k]), low))
    ensures forall t :: j <= t < (if k == -1 then |row| else k) ==> !Contains(Lower(row[t]), low)
    decreases |row| - j
  {
    if j == |row| then -1
    else if Contains(Lower(row[j]), low) then j
    else FirstInRow(row, low, j + 1)
  }

  /** The row-major search of `find`, from row `i + 1` on, given that earlier rows hold no match. */
  function FirstMatchFrom(rows: Grid, needle: string, i: nat): (r: Option<Cell>)
    requires i <= |rows| && NoMatchBefore(rows, needle, i + 1, 1)
    ensures r.Some? ==>
      (IsMatch(rows, needle, r.value.row, r.value.col) &&
       r.value.value == rows[r.value.row - 1][r.value.col - 1] &&
       NoMatchBefore(rows, needle, r.value.row, r.value.col))
    ensures r.None? ==> NoMatchBefore(rows, needle, |rows| + 1, 1)
    decreases |rows| - i
  {
    if i == |rows| then None
    else
      var k := FirstInRow(rows[i], Lower(needle), 0);
      if k >= 0 then Some(Cell(i + 1, k + 1, rows[i][k]))
      else FirstMatchFrom(rows, needle, i + 1)
  }

  /** The cell `find(needle)` returns, if any. */
  function FirstMatch(rows: Grid, needle: string): Option<Cell> {
    FirstMatchFrom(rows, needle, 0)
  }

  /** `find(needle)` as a value: the first match, or ValueError. */
  function FindResult(rows: Grid, needle: string): Result<Cell> {
    match FirstMatch(rows, needle)
    case Some(c) => Ok(c)
    case None => Raised("ValueError")
  }

  /** A match with no match before it is the one `find` returns. */
  lemma FirstMatchUnique(rows: Grid, needle: string, r: int, c: int)
    requires IsMatch(rows, needle, r, c) && NoMatchBefore(rows, needle, r, c)
    ensures FirstMatch(rows, needle) == Some(Cell(r, c, rows[r - 1][c - 1]))
  {
    var m := FirstMatch(rows, needle);
    assert m.Some?;
    var x := m.value;
    assert !(x.row < r || (x.row == r && x.col < c));
    assert !(r < x.row || (r == x.row && c < x.col));
  }

  /** With no match anywhere, `find` raises. */
  lemma FirstMatchNone(rows: Grid, needle: string)
    requires NoMatchBefore(rows, needle, |rows| + 1, 1)
    ensures FirstMatch(rows, needle) == None
  {
    var m := FirstMatch(rows, needle);
    assert forall i, j :: !IsMatch(rows, needle, i, j);
  }

  /** After growing, the grid reaches (row, col) and has at least `row` rows. */
  lemma GrownReaches(rows: Grid, row: int, col: int)
    requires row >= 1
    ensures |Grown(rows, row, col)| == (if |rows| >= row then |rows| else row)
    ensures col <= |Grown(rows, row, col)[row - 1]|
  {
  }

  /** Growing the grid never changes what any position reads, existing cells included. */
  lemma GrownReadsSame(rows: Grid, row: int, col: int, r: int, c: int)
    requires row >= 1
    ensures CellValue(Grown(rows, row, col), r, c) == CellValue(rows, r, c)
  {
    var p := Padded(rows, row);
    if 1 <= r <= |rows| && 1 <= c <= |rows[r - 1]| {
      assert p[r - 1] == rows[r - 1] by { assert p[..|rows|][r - 1] == rows[r - 1]; }
      if r == row {
        var w := Widened(p[r - 1], col);
        assert w[..|p[r - 1]|][c - 1] == w[c - 1];
      }
    }
  }

  /** `cell(r, c)` after `update_cell(r, c, v)` reads `v`. */
  lemma ReadAfterUpdate(rows: Grid, row: int, col: int, value: string)
    requires row >= 1 && col >= 1
    ensures CellValue(Updated(rows, row, col, value), row, col) == value
  {
    GrownReaches(rows, row, col);
  }

  /** Updating one cell leaves every other position reading what it read before. */
  lemma UpdateLeavesOthers(rows: Grid, row: int, col: int, value: string, r: int, c: int)
    requires row >= 1 && col >= 1
    requires (r, c) != (row, col)
    ensures CellValue(Updated(rows, row, col, value), r, c) == CellValue(rows, r, c)
  {
    GrownReaches(rows, row, col);
    GrownReadsSame(rows, row, col, r, c);
  }

  /** Inserting adds one row at the clamped position and shifts the later rows down by one. */
  lemma InsertShifts(rows: Grid, values: seq<string>, index: int)
    ensures var g, p := Inserted(rows, values, index), InsertPosition(rows, index);
      |g| == |rows| + 1 && g[p] == values &&
      (forall i :: 0 <= i < p ==> g[i] == rows[i]) &&
      (forall i :: p <= i < |rows| ==> g[i + 1] == rows[i])
  {
  }

  /** The worksheet: a title and the rows of cell text, which its methods grow and change. */
  class InMemoryWorksheet {
    const title: string
    var rows: Grid

    constructor (init: Grid, title: string)
      ensures this.rows == init && this.title == title
    {
      this.title := title;
      this.rows := init;
    }

    /** `_ensure_position`: append empty rows, then "" cells to row `row`, until (row, col) exists. */
    method EnsurePosition(row: int, col: int) returns (rowIdx: int, colIdx: int)
      requires row >= 1 && col >= 1
      modifies this
      ensures rows == Grown(old(rows), row, col)
      ensures rowIdx == row - 1 && colIdx == col - 1
    {
      PadRows(row);
      rowIdx := row - 1;
      WidenRow(rowIdx, col);
      colIdx := col - 1;
    }

    /** The first loop of `_ensure_position`: empty rows appended until there are `row`. */
    method PadRows(row: int)
      modifies this
      ensures rows == Padded(old(rows), row)
    {
      ghost var start := rows;
      while |rows| < row
        invariant |start| <= |rows| <= (if |start| >= row then |start| else row)
        invariant rows == start + seq(|rows| - |start|, _ => [])
        decreases row - |rows|
      {
        GrowRows(start, |rows| - |start|);
        rows := rows + [[]];
      }
    }

    /** The second loop of `_ensure_position`: "" appended to row `r` until it has `col` cells. */
    method WidenRow(r: int, col: int)
      requires 0 <= r < |rows|
      modifies this
      ensures rows == old(rows)[r := Widened(old(rows)[r], col)]
    {
      ghost var p := rows;
      assert p[r] + seq(0, _ => "") == p[r];
      assert p[r := p[r]] == p;
      while |rows[r]| < col
        invariant |rows| == |p|
        invariant |p[r]| <= |rows[r]| <= (if |p[r]| >= col then |p[r]| else col)
        invariant rows == p[r := p[r] + seq(|rows[r]| - |p[r]|, _ => "")]
        decreases col - |rows[r]|
      {
        GrowCells(p[r], |rows[r]| - |p[r]|);
        rows := rows[r := rows[r] + [""]];
      }
    }

    /** `get_all_values`: the rows, as a value the caller can change without touching the sheet. */
    method GetAllValues() returns (values: Grid)
      ensures values == rows
    {
      values := rows;
    }

    /** `col_values(col)`: walks the rows, taking the cell or "". */
    method ColValues(col: int) returns (values: seq<string>)
      requires col >= 1
      ensures values == ColumnOf(rows, col)
    {
      values := [];
      for i := 0 to |rows|
        invariant values == ColumnOf(rows[..i], col)
      {
        assert rows[..i + 1] == rows[..i] + [rows[i]];
        if col <= |rows[i]| {
          values := values + [rows[i][col - 1]];
        } else {
          values := values + [""];
        }
      }
      assert rows[..|rows|] == rows;
    }

    /** `cell(row, col)`: grows the sheet to reach the cell, then reads it. */
    method GetCell(row: int, col: int) returns (cell: Cell)
      requires row >= 1 && col >= 1
      modifies this
      ensures rows == Grown(old(rows), row, col)
      ensures cell == Cell(row, col, CellValue(old(rows), row, col))
    {
      var r, c := EnsurePosition(row, col);
      GrownReadsSame(old(rows), row, col, row, col);
      GrownReaches(old(rows), row, col);
      cell := Cell(row, col, rows[r][c]);
    }

    /**
     * `find(needle)`: the first cell, row by row and left to right, whose
     * lower-cased text contains the lower-cased needle; ValueError if none.
     */
    method Find(needle: string) returns (r: Result<Cell>)
      ensures r.Ok? ==>
        (IsMatch(rows, needle, r.value.row, r.value.col) &&
         r.value.value == rows[r.value.row - 1][r.value.col - 1] &&
         NoMatchBefore(rows, needle, r.value.row, r.value.col))
      ensures r.Raised? ==> r.error == "ValueError" && NoMatchBefore(rows, needle, |rows| + 1, 1)
      ensures r == FindResult(rows, needle)
    {
      var low := Lower(needle);
      var i := 0;
      while i < |rows|
        invariant 0 <= i <= |rows|
        invariant NoMatchBefore(rows, needle, i + 1, 1)
      {
        var j := 0;
        while j < |rows[i]|
          invariant 0 <= j <= |rows[i]|
          invariant NoMatchBefore(rows, needle, i + 1, j + 1)
        {
          if Contains(Lower(rows[i][j]), low) {
            FirstMatchUnique(rows, needle, i + 1, j + 1);
            return Ok(Cell(i + 1, j + 1, rows[i][j]));
          }
          j := j + 1;
        }
        i := i + 1;
      }
      FirstMatchNone(rows, needle);
      return Raised("ValueError");
    }

    /** `insert_row(values, index)`. */
    method InsertRow(values: seq<string>, index: int)
      modifies this
      ensures rows == Inserted(old(rows), values, index)
    {
      var idx := if index - 1 > 0 then index - 1 else 0;
      if idx > |rows| {
        idx := |rows|;
      }
      rows := rows[..idx] + [values] + rows[idx..];
    }

    /** `update_cell(row, col, value)`: grows the sheet to reach the cell, then overwrites it. */
    method UpdateCell(row: int, col: int, value: string)
      requires row >= 1 && col >= 1
      modifies this
      ensures rows == Updated(old(rows), row, col, value)
    {
      var r, c := EnsurePosition(row, col);
      GrownReaches(old(rows), row, col);
      rows := rows[r := rows[r][c := value]];
    }
  }

  /** The process-wide slot `override_sheets_repo` sets and `get_sheets_repo` reads. */
  class Registry {
    var current: object?

    constructor (initial: object?)
      ensures current == initial
    {
      current := initial;
    }
  }

  /** The three worksheets the bot reads and writes. */
  class SheetsRepoStub {
    const expense: InMemoryWorksheet
    const income: InMemoryWorksheet
    const subscriptions: InMemoryWorksheet

    constructor (expenseRows: Grid, incomeRows: Grid, subscriptionsRows: Grid)
      ensures fresh(expense) && fresh(income) && fresh(subscriptions)
      ensures expense.rows == expenseRows && expense.title == "Expense"
      ensures income.rows == incomeRows && income.title == "Income"
      ensures subscriptions.rows == subscriptionsRows && subscriptions.title == "Subscriptions"
    {
      expense := new InMemoryWorksheet(expenseRows, "Expense");
      income := new InMemoryWorksheet(incomeRows, "Income");
      subscriptions := new InMemoryWorksheet(subscriptionsRows, "Subscriptions");
    }

    /** Entering `patched()`: install this stub and remember what was installed before. */
    method Enter(registry: Registry) returns (previous: object?)
      modifies registry
      ensures registry.current == this && previous == old(registry.current)
    {
      previous := registry.current;
      registry.current := this;
    }

    /** Leaving `patched()`, normally or by an exception: put the previous repository back. */
    method Exit(registry: Registry, previous: object?)
      modifies registry
      ensures registry.current == previous
    {
      registry.current := previous;
    }

    /**
     * A whole `with stub.patched():` block whose body does not touch the
     * registry: inside it the stub is installed, afterwards the original is.
     */
    method Patched(registry: Registry) returns (inside: object?)
      modifies registry
      ensures inside == this && registry.current == old(registry.current)
    {
      var previous := Enter(registry);
      inside := registry.current;
      Exit(registry, previous);
    }
  }
}
