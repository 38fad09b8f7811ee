/**
 * The ledger writers of src/bookiebot/sheets/writer.py: the income insert
 * above "Monthly Income:", the expense append below a category block, the
 * entry normalisation, and the pending-card map through which a request for
 * an ambiguous person waits for a card choice.
 *
 * The parts the two earlier revisions share word for word (normalisation,
 * the row append, the income insert, the pending map) are defined here once;
 * the expense flow of each revision is its own module.
 */
module Writer {
  import opened Wrappers
  import opened PyText
  import opened Money
  import opened Calendar
  import opened A1
  import opened Schema
  import opened Sheet
  import opened Entities
  import Income

  // ------------------------------------------------------------ normalising

  /** What `normalize_expense_data` returns: the fields a ledger row holds. */
  datatype Entry = Entry(date: string, amount: real, location: string, person: string, item: string)

  /**
   * `normalize_expense_data(data, person)`, with `stamp` the local date as
   * "%-m/%-d/%Y" renders it: `float(amount or 0)`, the stripped location,
   * person and item (the item entity, else the food entity). The first
   * failing field, in the order the dictionary is built, raises.
   */
  function NormalizeExpenseData(data: Data, person: string, stamp: string): Result<Entry> {
    Assemble(PyFloatOf(Or(Lookup(data, "amount"), Int(0))),
             StrippedText(Or(Lookup(data, "location"), Str(""))),
             StrippedText(Or(Or(Lookup(data, "item"), Lookup(data, "food")), Str(""))),
             Strip(person), stamp)
  }

  /** The entry from its converted fields, or the error of the first field that failed. */
  function Assemble(amount: Result<real>, location: Result<string>, item: Result<string>, person: string, stamp: string): (r: Result<Entry>)
    ensures r.Ok? <==> amount.Ok? && location.Ok? && item.Ok?
    ensures r.Ok? ==> r.value.date == stamp && r.value.person == person && r.value.item == item.value
  {
    if amount.Raised? then Raised(amount.error)
    else if location.Raised? then Raised(location.error)
    else if item.Raised? then Raised(item.error)
    else Ok(Entry(stamp, amount.value, location.value, person, item.value))
  }

  /** A normalised entry carries the stamp of the day, which reads back as that day, and the given person stripped. */
  lemma NormalizeStamp(data: Data, person: string, today: Date)
    requires Valid(today)
    ensures var r := NormalizeExpenseData(data, person, FormatShort(today));
      r.Ok? ==> ParseMdY(r.value.date) == Some(today) && r.value.person == Strip(person)
  {
    var r := NormalizeExpenseData(data, person, FormatShort(today));
    if r.Ok? {
      assert r.value.date == FormatShort(today);
      ParseShort(today);
    }
  }

  /** Without an amount entity, or with a falsy one, the amount is 0.0. */
  lemma NormalizeAmountDefault(data: Data, person: string, stamp: string)
    requires !Truthy(Lookup(data, "amount"))
    ensures NormalizeExpenseData(data, person, stamp).Ok? ==> NormalizeExpenseData(data, person, stamp).value.amount == 0.0
  {
    assert Or(Lookup(data, "amount"), Int(0)) == Int(0);
  }

  /** A non-empty item entity is the item, whatever the food entity says. */
  lemma NormalizeItem(data: Data, person: string, stamp: string)
    requires Lookup(data, "item").Str? && Lookup(data, "item").s != ""
    ensures var r := NormalizeExpenseData(data, person, stamp);
      r.Ok? ==> r.value.item == Strip(Lookup(data, "item").s)
  {
  }

  /** The food entity stands in for a falsy item entity. */
  lemma NormalizeFood(data: Data, person: string, stamp: string)
    requires !Truthy(Lookup(data, "item")) && Lookup(data, "food").Str?
    ensures var r := NormalizeExpenseData(data, person, stamp);
      r.Ok? ==> r.value.item == Strip(Lookup(data, "food").s)
  {
  }

  /** The text `update_cell` stores for a field of the entry, or None for a field the entry lacks. */
  function FieldText(e: Entry, field: string): Option<string> {
    if field == "date" then Some(e.date)
    else if field == "amount" then Some(ReprFloat(e.amount))
    else if field == "location" then Some(e.location)
    else if field == "person" then Some(e.person)
    else if field == "item" then Some(e.item)
    else None
  }

  /** The required fields that are falsy in the entry, in the order amount, person, item. */
  function MissingFields(e: Entry): seq<string> {
    (if e.amount == 0.0 then ["amount"] else []) +
    (if e.person == "" then ["person"] else []) +
    (if e.item == "" then ["item"] else [])
  }

  /** A required field is listed iff it is falsy; the list keeps the order amount, person, item and has no repeats. */
  lemma MissingFieldsMeaning(e: Entry)
    ensures "amount" in MissingFields(e) <==> e.amount == 0.0
    ensures "person" in MissingFields(e) <==> e.person == ""
    ensures "item" in MissingFields(e) <==> e.item == ""
    ensures MissingFields(e) == [] <==> e.amount != 0.0 && e.person != "" && e.item != ""
    ensures forall i, j :: 0 <= i < j < |MissingFields(e)| ==>
      FieldRank(MissingFields(e)[i]) < FieldRank(MissingFields(e)[j])
  {
  }

  function FieldRank(field: string): int {
    if field == "amount" then 0 else if field == "person" then 1 else 2
  }

  /** The reply listing the missing fields; the earliest revision sends it without the mark. */
  function MissingReply(missing: seq<string>, marked: bool): string {
    (if marked then "❌ " else "") + "Could not log entry — missing: " + Join(missing, ", ") + "."
  }

  /** `s.capitalize()`, for the ASCII letters. */
  function Capitalize(s: string): (r: string)
    ensures |r| == |s|
    ensures |s| > 0 ==> r[0] == UpperChar(s[0]) && forall i :: 1 <= i < |s| ==> r[i] == LowerChar(s[i])
  {
    if s == [] then [] else [UpperChar(s[0])] + Lower(s[1..])
  }

  // -------------------------------------------------------- the row append

  /** A category block the append can use: a first row, a column list, and letters that name columns. */
  predicate WellFormed(c: Category) {
    c.startRow >= 1 && |c.columns| > 0 &&
    forall j :: 0 <= j < |c.columns| ==> ColumnIndex(c.columns[j].1).Ok?
  }

  /** `columns.get("amount") or list(columns.values())[0]`. */
  function RefLetter(c: Category): (letter: string)
    requires |c.columns| > 0
    ensures exists j :: 0 <= j < |c.columns| && c.columns[j].1 == letter
  {
    match Get(c.columns, "amount")
    case Some(l) => if l != "" then l else c.columns[0].1
    case None => c.columns[0].1
  }

  /** `len(xs[s:])` for s >= 0. */
  function TailLength(n: nat, s: nat): nat {
    if s >= n then 0 else n - s
  }

  /**
   * `first_empty_row = len(col_values(ref)[start_row - 1:]) + start_row`:
   * against the in-memory sheet every row has an entry in the column.
   */
  function TargetRow(rows: Grid, c: Category): int
    requires c.startRow >= 1
  {
    TailLength(|rows|, c.startRow - 1) + c.startRow
  }

  /** The target row is the row after the last one, or the block's first row if that is further down. */
  lemma TargetRowFresh(rows: Grid, c: Category)
    requires c.startRow >= 1
    ensures TargetRow(rows, c) == if |rows| + 1 >= c.startRow then |rows| + 1 else c.startRow
    ensures TargetRow(rows, c) > |rows| && TargetRow(rows, c) >= c.startRow
    ensures forall col :: CellValue(rows, TargetRow(rows, c), col) == ""
  {
  }

  /** Every column letter of the list names a column. */
  predicate LettersValid(cols: seq<(string, string)>) {
    forall j :: 0 <= j < |cols| ==> ColumnIndex(cols[j].1).Ok?
  }

  /** The grid after `update_cell(row, column, str(value))` for each listed field the entry has, in order. */
  function Written(rows: Grid, row: int, cols: seq<(string, string)>, e: Entry): Grid
    requires row >= 1 && LettersValid(cols)
  {
    if cols == [] then rows
    else
      var prev := Written(rows, row, cols[..|cols| - 1], e);
      match FieldText(e, cols[|cols| - 1].0)
      case None => prev
      case Some(v) => Updated(prev, row, ColumnIndex(cols[|cols| - 1].1).value, v)
  }

  /** The `i`-th field of the list writes its cell, or nothing when the entry lacks it. */
  lemma WrittenStep(rows: Grid, row: int, cols: seq<(string, string)>, i: nat, e: Entry)
    requires row >= 1 && LettersValid(cols) && i < |cols|
    ensures LettersValid(cols[..i]) && LettersValid(cols[..i + 1])
    ensures FieldText(e, cols[i].0).None? ==> Written(rows, row, cols[..i + 1], e) == Written(rows, row, cols[..i], e)
    ensures FieldText(e, cols[i].0).Some? ==>
              Written(rows, row, cols[..i + 1], e) ==
              Updated(Written(rows, row, cols[..i], e), row, ColumnIndex(cols[i].1).value, FieldText(e, cols[i].0).value)
  {
    assert cols[..i + 1][..i] == cols[..i];
  }

  /** Writing touches no row but the target row, and no column outside the list. */
  lemma {:induction false} WrittenElsewhere(rows: Grid, row: int, cols: seq<(string, string)>, e: Entry, r: int, c: int)
    requires row >= 1 && LettersValid(cols)
    requires r != row || forall j :: 0 <= j < |cols| ==> ColumnIndex(cols[j].1).value != c
    ensures CellValue(Written(rows, row, cols, e), r, c) == CellValue(rows, r, c)
  {
    if cols != [] {
      var init := cols[..|cols| - 1];
      assert forall j :: 0 <= j < |init| ==> init[j] == cols[j];
      WrittenElsewhere(rows, row, init, e, r, c);
      var prev := Written(rows, row, init, e);
      match FieldText(e, cols[|cols| - 1].0)
      case None =>
      case Some(v) =>
        UpdateLeavesOthers(prev, row, ColumnIndex(cols[|cols| - 1].1).value, v, r, c);
    }
  }

  /**
   * In the target row, the column of a listed field holds the text of that
   * field, when no later field shares the column.
   */
  lemma {:induction false} WrittenCell(rows: Grid, row: int, cols: seq<(string, string)>, e: Entry, j: int)
    requires row >= 1 && LettersValid(cols) && 0 <= j < |cols| && FieldText(e, cols[j].0).Some?
    requires forall k :: j < k < |cols| ==> ColumnIndex(cols[k].1).value != ColumnIndex(cols[j].1).value
    ensures CellValue(Written(rows, row, cols, e), row, ColumnIndex(cols[j].1).value) == FieldText(e, cols[j].0).value
  {
    var init := cols[..|cols| - 1];
    assert forall k :: 0 <= k < |init| ==> init[k] == cols[k];
    var prev := Written(rows, row, init, e);
    var col := ColumnIndex(cols[j].1).value;
    if j == |cols| - 1 {
      ReadAfterUpdate(prev, row, col, FieldText(e, cols[j].0).value);
    } else {
      WrittenCell(rows, row, init, e, j);
      match FieldText(e, cols[|cols| - 1].0)
      case None =>
      case Some(v) =>
        UpdateLeavesOthers(prev, row, ColumnIndex(cols[|cols| - 1].1).value, v, row, col);
    }
  }

  /** The grid after `log_category_row(values, ws, category)` with the given category block. */
  function Logged(rows: Grid, c: Category, e: Entry): Grid
    requires WellFormed(c)
  {
    Written(rows, TargetRow(rows, c), c.columns, e)
  }

  /** `log_category_row(values, worksheet, category)`, the block looked up in `table`. */
  method LogCategoryRow(values: Entry, ws: InMemoryWorksheet, category: string, table: Table<Category>)
    requires Get(table, category).Some? && WellFormed(Get(table, category).value)
    modifies ws
    ensures ws.rows == Logged(old(ws.rows), Get(table, category).value, values)
  {
    var config := Get(table, category).value;
    var rowStart := config.startRow;
    var columns := config.columns;
    var refColIndex := ColumnIndex(RefLetter(config)).value;
    var colValues := ws.ColValues(refColIndex);
    var firstEmptyRow := TailLength(|colValues|, rowStart - 1) + rowStart;
    ghost var rows0 := ws.rows;
    assert firstEmptyRow == TargetRow(rows0, config);
    var i := 0;
    while i < |columns|
      invariant 0 <= i <= |columns|
      invariant ws.rows == Written(rows0, firstEmptyRow, columns[..i], values)
    {
      WrittenStep(rows0, firstEmptyRow, columns, i, values);
      var (field, colLetter) := columns[i];
      var value := FieldText(values, field);
      if value.Some? {
        var colIndex := ColumnIndex(colLetter).value;
        ws.UpdateCell(firstEmptyRow, colIndex, value.value);
      }
      i := i + 1;
    }
    assert columns[..i] == columns;
  }

  /** Every column letter of the configuration table names the column of its position in the alphabet. */
  lemma ConfigColumnIndex(category: string)
    requires Get(Config, category).Some?
    ensures var cols := Get(Config, category).value.columns;
      forall j :: 0 <= j < |cols| ==> |cols[j].1| == 1 && ColumnIndex(cols[j].1) == Ok(cols[j].1[0] as int - 'A' as int + 1)
  {
    ConfigEntryLetters(category);
    LetterColumnsIndex(Get(Config, category).value.columns);
  }

  /** One-letter column names read back as their place in the alphabet. */
  lemma LetterColumnsIndex(cols: seq<(string, string)>)
    requires forall j :: 0 <= j < |cols| ==> |cols[j].1| == 1 && IsUpperLetter(cols[j].1[0])
    ensures forall j :: 0 <= j < |cols| ==> ColumnIndex(cols[j].1) == Ok(cols[j].1[0] as int - 'A' as int + 1)
  {
    forall j | 0 <= j < |cols|
      ensures ColumnIndex(cols[j].1) == Ok(cols[j].1[0] as int - 'A' as int + 1)
    {
      assert cols[j].1 == [cols[j].1[0]];
      SingleLetterIndex(cols[j].1[0]);
    }
  }

  /** Every block of the configuration table can be appended to. */
  lemma ConfigWellFormed(category: string)
    requires Get(Config, category).Some?
    ensures WellFormed(Get(Config, category).value)
  {
    ConfigColumnIndex(category);
    var i :| 0 <= i < |Config| && Config[i] == (category, Get(Config, category).value);
  }

  /** Within a block of the configuration table, the column letters differ. */
  lemma ConfigLettersApart(category: string)
    requires Get(Config, category).Some?
    ensures var cols := Get(Config, category).value.columns;
      forall j, k :: 0 <= j < k < |cols| ==> cols[j].1 != cols[k].1
  {
    var i :| 0 <= i < |Config| && Config[i] == (category, Get(Config, category).value);
    assert i == 0 || i == 1 || i == 2 || i == 3;
  }

  /** Two different one-letter labels name different columns. */
  lemma SingleLettersApart(a: string, b: string)
    requires |a| == 1 && |b| == 1 && IsUpperLetter(a[0]) && IsUpperLetter(b[0]) && a != b
    ensures ColumnIndex(a) != ColumnIndex(b)
  {
    assert a == [a[0]] && b == [b[0]];
    SingleLetterIndex(a[0]);
    SingleLetterIndex(b[0]);
  }

  /** No block of the configuration table writes two fields to one column. */
  lemma ConfigColumnsApart(category: string)
    requires Get(Config, category).Some?
    ensures var cols := Get(Config, category).value.columns;
      forall j, k :: 0 <= j < k < |cols| ==> ColumnIndex(cols[j].1) != ColumnIndex(cols[k].1)
  {
    ConfigEntryLetters(category);
    ConfigLettersApart(category);
    var cols := Get(Config, category).value.columns;
    forall j, k | 0 <= j < k < |cols|
      ensures ColumnIndex(cols[j].1) != ColumnIndex(cols[k].1)
    {
      SingleLettersApart(cols[j].1, cols[k].1);
    }
  }

  /** The column of a configured field holds the entry's text for it after an append. */
  lemma ConfigFieldCell(rows: Grid, category: string, e: Entry, field: string)
    requires Get(Config, category).Some? && Get(Get(Config, category).value.columns, field).Some?
    requires FieldText(e, field).Some?
    ensures WellFormed(Get(Config, category).value)
    ensures var c := Get(Config, category).value;
      Column(c, field).Some? &&
      CellValue(Logged(rows, c, e), TargetRow(rows, c), Column(c, field).value) == FieldText(e, field).value
  {
    ConfigWellFormed(category);
    ConfigColumnsApart(category);
    var c := Get(Config, category).value;
    var j :| 0 <= j < |c.columns| && c.columns[j] == (field, Get(c.columns, field).value);
    assert Column(c, field) == Some(ColumnIndex(c.columns[j].1).value);
    WrittenCell(rows, TargetRow(rows, c), c.columns, e, j);
  }

  /** An append with the configuration table changes no row but the target row. */
  lemma LoggedOnlyTargetRow(rows: Grid, category: string, e: Entry, r: int, col: int)
    requires Get(Config, category).Some?
    ensures WellFormed(Get(Config, category).value)
    ensures var c := Get(Config, category).value;
      r != TargetRow(rows, c) ==> CellValue(Logged(rows, c, e), r, col) == CellValue(rows, r, col)
  {
    ConfigWellFormed(category);
    var c := Get(Config, category).value;
    if r != TargetRow(rows, c) {
      WrittenElsewhere(rows, TargetRow(rows, c), c.columns, e, r, col);
    }
  }

  /** The date written by an append reads back, with the ledger's date parser, as the day it was stamped with. */
  lemma LoggedDateReadsBack(rows: Grid, category: string, e: Entry, today: Date)
    requires Get(Config, category).Some? && Valid(today) && e.date == FormatShort(today)
    ensures WellFormed(Get(Config, category).value)
    ensures var c := Get(Config, category).value;
      Column(c, "date").Some? &&
      ParseMdY(CellValue(Logged(rows, c, e), TargetRow(rows, c), Column(c, "date").value)) == Some(today)
  {
    RequiredFields(category);
    ConfigFieldCell(rows, category, e, "date");
    ParseShort(today);
  }

  /** An amount `str` shows exactly is read back by `clean_money` from the amount column as itself. */
  lemma LoggedAmountReadsBack(rows: Grid, category: string, e: Entry)
    requires Get(Config, category).Some?
    requires exists p :: 1 <= p <= MaxPlaces && HasPlaces(e.amount, p)
    ensures WellFormed(Get(Config, category).value)
    ensures var c := Get(Config, category).value;
      Column(c, "amount").Some? &&
      CleanMoney(CellValue(Logged(rows, c, e), TargetRow(rows, c), Column(c, "amount").value)) == e.amount
  {
    RequiredFields(category);
    ConfigFieldCell(rows, category, e, "amount");
    CleanMoneyOfRepr(e.amount);
  }

  // ------------------------------------------------------- the income insert

  /**
   * `i <= len(col_b) and col_b[i - 1].strip()` for a row `i >= 1`: the row
   * has text other than whitespace in the column.
   */
  predicate HasEntry(colB: seq<string>, i: int) {
    1 <= i <= |colB| && !AllSpace(colB[i - 1])
  }

  /** The entry test is the strip test of the scan. */
  lemma HasEntryStrip(colB: seq<string>, i: int)
    ensures HasEntry(colB, i) <==> 1 <= i <= |colB| && Strip(colB[i - 1]) != ""
  {
    if 1 <= i <= |colB| {
      StripEmptyIffAllSpace(colB[i - 1]);
    }
  }

  /** The first `i` from `below - 1` down to 1 with an entry. */
  function LastEntry(colB: seq<string>, below: int): Option<int>
    decreases below
  {
    if below <= 1 then None
    else if HasEntry(colB, below - 1) then Some(below - 1)
    else LastEntry(colB, below - 1)
  }

  /** The row found is the last one above `below` with an entry; None iff no row above has one. */
  lemma {:induction false} LastEntryMeaning(colB: seq<string>, below: int)
    decreases below
    ensures var r := LastEntry(colB, below);
      r.Some? ==> (1 <= r.value < below && HasEntry(colB, r.value) &&
                   forall i :: r.value < i < below ==> !HasEntry(colB, i))
    ensures LastEntry(colB, below).None? <==> forall i :: 1 <= i < below ==> !HasEntry(colB, i)
  {
    if below > 1 && !HasEntry(colB, below - 1) {
      LastEntryMeaning(colB, below - 1);
    }
  }

  /** The `for i in range(summary_row - 1, 0, -1)` scan of column B. */
  method LastEntryRow(colB: seq<string>, summaryRow: int) returns (last: Option<int>)
    ensures last == LastEntry(colB, summaryRow)
  {
    var i := summaryRow - 1;
    while i > 0
      invariant i <= summaryRow - 1
      invariant LastEntry(colB, summaryRow) == LastEntry(colB, i + 1)
    {
      if HasEntry(colB, i) {
        return Some(i);
      }
      i := i - 1;
    }
    return None;
  }

  /** Where `write_income_to_sheet` inserts: the last entry above "Monthly Income:", if both exist. */
  function IncomeIndex(rows: Grid): Option<int> {
    match FirstMatch(rows, Income.IncomeLabel)
    case None => None
    case Some(c) => LastEntry(ColumnOf(rows, 2), c.row)
  }

  /** `["", f"{source} {label}".strip(), amount]`, as the sheet stores it. */
  function IncomeRow(data: Data): seq<string> {
    ["",
     Strip(PyStr(LookupOr(data, "source", Str(""))) + " " + PyStr(LookupOr(data, "label", Str("")))),
     PyStr(LookupOr(data, "amount", Str("")))]
  }

  function IncomeReply(data: Data): string {
    "Income logged: $" + PyStr(LookupOr(data, "amount", Str(""))) + " from " + PyStr(Lookup(data, "source"))
  }

  /** The income sheet after `write_income_to_sheet(data)`. */
  function IncomeRows(rows: Grid, data: Data): Grid {
    match IncomeIndex(rows)
    case None => rows
    case Some(i) => Inserted(rows, IncomeRow(data), i)
  }

  /**
   * `write_income_to_sheet(data, message)`: with no sheet, the access error;
   * when the label or an entry above it is missing, nothing is inserted and
   * nothing is said; otherwise the row goes in and the confirmation is sent.
   */
  method WriteIncomeToSheet(ws: InMemoryWorksheet?, data: Data) returns (reply: Option<string>)
    modifies ws
    ensures ws == null ==> reply == Some("Error accessing income sheet.")
    ensures ws != null ==> ws.rows == IncomeRows(old(ws.rows), data)
    ensures ws != null ==> reply == if IncomeIndex(old(ws.rows)).Some? then Some(IncomeReply(data)) else None
  {
    if ws == null {
      return Some("Error accessing income sheet.");
    }
    var summaryCell := ws.Find(Income.IncomeLabel);
    if summaryCell.Raised? {
      return None;
    }
    var summaryRow := summaryCell.value.row;
    var colBValues := ws.ColValues(2);
    var lastEntryRow := LastEntryRow(colBValues, summaryRow);
    if lastEntryRow.None? {
      return None;
    }
    var insertRowIndex := lastEntryRow.value;
    ws.InsertRow(IncomeRow(data), insertRowIndex);
    return Some(IncomeReply(data));
  }

  /**
   * The new row takes the place of the last entry, which moves one row down
   * with everything after it, the "Monthly Income:" row included; rows above
   * are unchanged.
   */
  lemma IncomeRowPlacement(rows: Grid, data: Data)
    requires IncomeIndex(rows).Some?
    ensures var i := IncomeIndex(rows).value;
      var after := IncomeRows(rows, data);
      var summary := FirstMatch(rows, Income.IncomeLabel).value.row;
      1 <= i < summary <= |rows| && |after| == |rows| + 1 && after[i - 1] == IncomeRow(data) &&
      (forall k :: 0 <= k < i - 1 ==> after[k] == rows[k]) &&
      (forall k :: i - 1 <= k < |rows| ==> after[k + 1] == rows[k]) &&
      !AllSpace(CellValue(after, i + 1, 2)) && after[summary] == rows[summary - 1]
  {
    var c := FirstMatch(rows, Income.IncomeLabel).value;
    Income.FirstMatchInRange(rows, Income.IncomeLabel);
    LastEntryMeaning(ColumnOf(rows, 2), c.row);
    InsertShifts(rows, IncomeRow(data), IncomeIndex(rows).value);
  }

  /** Without the label, or without an entry above it, the income sheet is left as it was. */
  lemma IncomeNothingToAnchor(rows: Grid, data: Data)
    requires FirstMatch(rows, Income.IncomeLabel).None? ||
      forall i :: 1 <= i < FirstMatch(rows, Income.IncomeLabel).value.row ==> AllSpace(CellValue(rows, i, 2))
    ensures IncomeRows(rows, data) == rows
  {
    if FirstMatch(rows, Income.IncomeLabel).Some? {
      var c := FirstMatch(rows, Income.IncomeLabel).value;
      LastEntryMeaning(ColumnOf(rows, 2), c.row);
    }
  }

  // ----------------------------------------------------- the pending map

  /** What a deferred request keeps: the entities, the expense sheet and, from the earlier revisions on, the category. */
  datatype Pending = Pending(data: Data, ws: InMemoryWorksheet?, category: Option<string>)

  /** `pending_data_by_user`: requests awaiting a card choice, by user name. */
  class PendingStore {
    var entries: map<string, Pending>

    constructor()
      ensures entries == map[]
    {
      entries := map[];
    }

    /** `pending_data_by_user[user] = entry`: a newer request replaces an older one. */
    method Put(user: string, entry: Pending)
      modifies this
      ensures entries == old(entries)[user := entry]
    {
      entries := entries[user := entry];
    }

    /** `pending_data_by_user.pop(user, None)`. */
    method Pop(user: string) returns (stored: Option<Pending>)
      modifies this
      ensures stored == if user in old(entries) then Some(old(entries)[user]) else None
      ensures entries == old(entries) - {user}
    {
      if user in entries {
        stored := Some(entries[user]);
      } else {
        stored := None;
      }
      entries := entries - {user};
    }
  }

  // ------------------------------------------------------ expense outcomes

  /** What an expense request or a card choice leads to. */
  datatype Outcome =
    | Answer(text: string)                                  // a reply; nothing written or stored
    | Crash(error: string)                                  // an exception before anything is written or stored
    | Defer(category: string)                               // the request is stored and the user asked for a card
    | Append(category: string, entry: Entry, reply: Result<string>) // one row is written, then the reply is sent or an exception raised

  /** A normalised entry carries the given person, stripped. */
  lemma NormalizePerson(data: Data, person: string, stamp: string)
    ensures var r := NormalizeExpenseData(data, person, stamp);
      r.Ok? ==> r.value.person == Strip(person)
  {
  }

  /**
   * The required-field check after normalising: a failed normalisation
   * raises, a falsy required field gets the list of missing fields, and
   * otherwise the entry is appended and `shown` (the amount entity as `str`
   * shows it) is confirmed.
   */
  function Checked(n: Result<Entry>, category: string, shown: string, person: string, marked: bool): Outcome {
    match n
    case Raised(e) => Crash(e)
    case Ok(values) =>
      var missing := MissingFields(values);
      if missing != [] then Answer(MissingReply(missing, marked))
      else Append(category, values,
        Ok((if marked then "✅ " else "") + Capitalize(category) + " expense logged: $" + shown + " for " + person))
  }

  /**
   * The check writes nothing when a required field is falsy: an amount of
   * 0.0 counts as missing, and so does an empty item, whatever the category.
   * The reply lists the falsy fields.
   */
  lemma CheckedMissing(n: Result<Entry>, category: string, shown: string, person: string, marked: bool)
    requires n.Ok? && (n.value.amount == 0.0 || n.value.person == "" || n.value.item == "")
    ensures Checked(n, category, shown, person, marked) == Answer(MissingReply(MissingFields(n.value), marked))
    ensures |MissingFields(n.value)| > 0
  {
    MissingFieldsMeaning(n.value);
  }

  /** When the check appends, it appends the normalised entry, with every required field set. */
  lemma CheckedAppends(n: Result<Entry>, category: string, shown: string, person: string, marked: bool)
    requires Checked(n, category, shown, person, marked).Append?
    ensures var o := Checked(n, category, shown, person, marked);
      n == Ok(o.entry) && o.category == category && o.reply.Ok? &&
      o.entry.amount != 0.0 && o.entry.person != "" && o.entry.item != ""
  {
    MissingFieldsMeaning(n.value);
  }

  /**
   * The single-person tail of `write_expense_to_sheet`: set the person,
   * normalise, check the required fields, then append.
   */
  function SinglePerson(data: Data, category: string, person: string, stamp: string, marked: bool): Outcome {
    var data' := Put(data, "person", Str(person));
    Checked(NormalizeExpenseData(data', person, stamp), category, PyStr(Lookup(data', "amount")), person, marked)
  }

  /** A single-person append is in the given category, for the given person stripped, with every required field set. */
  lemma SinglePersonAppends(data: Data, category: string, person: string, stamp: string, marked: bool)
    requires SinglePerson(data, category, person, stamp, marked).Append?
    ensures var o := SinglePerson(data, category, person, stamp, marked);
      o.category == category && o.entry.person == Strip(person) != "" &&
      o.entry.amount != 0.0 && o.entry.item != ""
  {
    var data' := Put(data, "person", Str(person));
    var n := NormalizeExpenseData(data', person, stamp);
    NormalizePerson(data', person, stamp);
    CheckedAppends(n, category, PyStr(Lookup(data', "amount")), person, marked);
  }

  /**
   * `handle_selection(interaction, card)` once the pending entry has been
   * popped: a missing entry means the session expired; otherwise the stored
   * entities get the chosen card as person and are written with no
   * required-field check.
   */
  function Selection(stored: Option<Data>, category: string, card: string, stamp: string, revision: Revision): Outcome {
    match stored
    case None => Answer(if revision == Earliest then "Session expired." else "❌ Session expired.")
    case Some(data) =>
      var data' := Put(data, "person", Str(card));
      Chosen(NormalizeExpenseData(data', card, stamp), category, Get(data', "amount"), card, revision)
  }

  /**
   * The write after a card choice: no required-field check; the reply reads
   * `data["amount"]`, which raises, after the row is written, when the
   * entities have no amount.
   */
  function Chosen(n: Result<Entry>, category: string, amount: Option<Scalar>, card: string, revision: Revision): Outcome {
    match n
    case Raised(e) => Crash(e)
    case Ok(values) =>
      Append(category, values,
        match amount
        case None => Raised("KeyError")
        case Some(a) =>
          if revision == Earliest then Ok("Logged " + category + " expense: $" + PyStr(a) + " using " + card)
          else Ok("✅ Logged " + category + " expense: $" + PyStr(a) + " for " + card))
  }

  /** Which writer revision a shared step belongs to. */
  datatype Revision = Current | Earlier | Earliest

  /**
   * A choice that finds its entry writes the normalised entry, falsy fields
   * and all; the reply raises exactly when the entities have no amount key.
   */
  lemma ChosenWrites(n: Result<Entry>, category: string, amount: Option<Scalar>, card: string, revision: Revision)
    requires n.Ok?
    ensures var o := Chosen(n, category, amount, card, revision);
      o.Append? && o.entry == n.value && o.category == category && (o.reply.Raised? <==> amount.None?)
  {
  }

  /** Setting the person leaves the amount entity as it was. */
  lemma PutPersonKeepsAmount(data: Data, person: string)
    ensures Get(Put(data, "person", Str(person)), "amount") == Get(data, "amount")
    ensures Lookup(Put(data, "person", Str(person)), "amount") == Lookup(data, "amount")
  {
  }

  /**
   * The step after `resolve_query_persons` in the two later revisions: no
   * person aborts (the reply names the explicit person, if one was given),
   * several persons defer to a card choice, and one person is logged.
   */
  function Resolved(data: Data, category: string, person: string, persons: seq<string>, stamp: string): Outcome {
    if persons == [] then
      Answer(if person == "" then "❌ Could not determine person for logging."
             else "❌ Could not resolve specified person: " + person)
    else if |persons| > 1 then Defer(category)
    else SinglePerson(data, category, persons[0], stamp, true)
  }

  /** No resolved person: an answer that names the explicit person when there was one; nothing is written or stored. */
  lemma ResolvedNobody(data: Data, category: string, person: string, stamp: string)
    ensures Resolved(data, category, person, [], stamp) ==
      Answer(if person == "" then "❌ Could not determine person for logging."
             else "❌ Could not resolve specified person: " + person)
  {
  }

  /** More than one resolved person: the request is stored for a card choice. */
  lemma ResolvedMany(data: Data, category: string, person: string, persons: seq<string>, stamp: string)
    requires |persons| > 1
    ensures Resolved(data, category, person, persons, stamp) == Defer(category)
  {
  }

  /** A single resolved person is the person the row is logged for. */
  lemma ResolvedSingle(data: Data, category: string, person: string, persons: seq<string>, stamp: string)
    requires |persons| == 1 && Resolved(data, category, person, persons, stamp).Append?
    ensures var o := Resolved(data, category, person, persons, stamp);
      o.category == category && o.entry.person == Strip(persons[0]) != ""
  {
    SinglePersonAppends(data, category, persons[0], stamp, true);
  }

  /** Only a single resolved person appends, and the row goes to the requested category. */
  lemma ResolvedAppends(data: Data, category: string, person: string, persons: seq<string>, stamp: string)
    requires Resolved(data, category, person, persons, stamp).Append?
    ensures |persons| == 1 && Resolved(data, category, person, persons, stamp).category == category
  {
    ResolvedSingle(data, category, person, persons, stamp);
  }

  /** The category a deferral stores with the request. */
  function DeferredCategory(o: Outcome): Option<string> {
    if o.Defer? then Some(o.category) else None
  }

  /** `data["type"] == "income"`: a KeyError without a type. */
  function IsIncome(data: Data): Result<bool> {
    match Get(data, "type")
    case None => Raised("KeyError")
    case Some(t) => Ok(t == Str("income"))
  }

  /** The worksheet's rows, or none for a sheet that could not be fetched. */
  function RowsOf(ws: InMemoryWorksheet?): Grid
    reads ws
  {
    if ws == null then [] else ws.rows
  }

  /**
   * The state change an outcome stands for: `rows0`/`entries0` before,
   * `rows1`/`entries1` after, with `pending` the entry a deferral stores
   * under `user` and `prompt` the card question it sends.
   */
  ghost predicate Effect(o: Outcome, table: Table<Category>, rows0: Grid, rows1: Grid,
                         entries0: map<string, Pending>, entries1: map<string, Pending>,
                         user: string, pending: Pending, prompt: string, reply: Result<Option<string>>)
  {
    match o
    case Answer(text) => rows1 == rows0 && entries1 == entries0 && reply == Ok(Some(text))
    case Crash(e) => rows1 == rows0 && entries1 == entries0 && reply == Raised(e)
    case Defer(_) => rows1 == rows0 && entries1 == entries0[user := pending] && reply == Ok(Some(prompt))
    case Append(category, entry, r) =>
      Get(table, category).Some? && WellFormed(Get(table, category).value) &&
      rows1 == Logged(rows0, Get(table, category).value, entry) && entries1 == entries0 &&
      reply == match r case Ok(t) => Ok(Some(t)) case Raised(e) => Raised(e)
  }

  /** Carries out an outcome on the expense sheet and the pending map. */
  method Perform(o: Outcome, table: Table<Category>, store: PendingStore, ws: InMemoryWorksheet,
                 user: string, pending: Pending, prompt: string) returns (reply: Result<Option<string>>)
    requires o.Append? ==> Get(table, o.category).Some? && WellFormed(Get(table, o.category).value)
    modifies store, ws
    ensures Effect(o, table, old(ws.rows), ws.rows, old(store.entries), store.entries, user, pending, prompt, reply)
  {
    match o
    case Answer(text) =>
      reply := Ok(Some(text));
    case Crash(e) =>
      reply := Raised(e);
    case Defer(_) =>
      store.Put(user, pending);
      reply := Ok(Some(prompt));
    case Append(category, entry, r) =>
      LogCategoryRow(entry, ws, category, table);
      reply := match r case Ok(t) => Ok(Some(t)) case Raised(e) => Raised(e);
  }

  /**
   * `handle_selection`, shared by the three revisions: pops the user's entry,
   * then writes to the sheet and with the category the request that created
   * this choice captured. A newer request from the same user replaces the
   * stored entities but not those two.
   */
  method HandleSelection(store: PendingStore, user: string, ws: InMemoryWorksheet, category: string,
                         table: Table<Category>, card: string, stamp: string, revision: Revision)
    returns (reply: Result<Option<string>>)
    requires Get(table, category).Some? && WellFormed(Get(table, category).value)
    modifies store, ws
    ensures user !in store.entries
    ensures var stored := if user in old(store.entries) then Some(old(store.entries)[user].data) else None;
      Effect(Selection(stored, category, card, stamp, revision), table, old(ws.rows), ws.rows,
             old(store.entries) - {user}, store.entries, user, Pending([], ws, None), "", reply)
  {
    var stored := store.Pop(user);
    var data := if stored.Some? then Some(stored.value.data) else None;
    reply := Perform(Selection(data, category, card, stamp, revision), table, store, ws, user, Pending([], ws, None), "");
  }
}
