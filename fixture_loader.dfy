/**
 * The sheet-fixture helpers of unit_tests/support/fixture_loader.py: the
 * "__TODAY__" date placeholder and the normalisation of fixture rows into a
 * rectangular grid of strings. Rows come either as lists of values or as
 * mappings from column letters to values. The clock is a parameter.
 */
module FixtureLoader {
  import opened Wrappers
  import opened PyText
  import opened Entities
  import opened A1
  import opened Calendar

  const TodayMarker := "__TODAY__"

  /** `s.replace(pat, "")`: every non-overlapping occurrence, left to right, removed. */
  function RemoveAll(s: string, pat: string): (r: string)
    requires |pat| > 0
    ensures |r| <= |s|
    decreases |s|
  {
    if |s| == 0 then ""
    else if IsPrefix(pat, s) then RemoveAll(s[|pat|..], pat)
    else [s[0]] + RemoveAll(s[1..], pat)
  }

  /** Text that does not hold the pattern's first character loses nothing. */
  lemma {:induction false} RemoveAllAbsent(s: string, pat: string)
    requires |pat| > 0 && pat[0] !in s
    ensures RemoveAll(s, pat) == s
    decreases |s|
  {
    if |s| > 0 {
      assert !IsPrefix(pat, s);
      RemoveAllAbsent(s[1..], pat);
      assert s == [s[0]] + s[1..];
    }
  }

  /**
   * `_resolve_placeholder(value)`: text starting with "__TODAY__" becomes the
   * date that many days from today (the text left once every marker is
   * removed, read with `int`; none means 0), written "%m/%d/%Y". Any other
   * value is returned as it is.
   */
  function ResolvePlaceholder(v: Scalar, today: Date): (r: Result<Scalar>)
    requires Valid(today)
    ensures !(v.Str? && IsPrefix(TodayMarker, v.s)) ==> r == Ok(v)
    ensures r.Ok? && r.value != v ==> v.Str? && IsPrefix(TodayMarker, v.s) && r.value.Str?
  {
    if v.Str? && IsPrefix(TodayMarker, v.s) then
      var offset := RemoveAll(v.s, TodayMarker);
      var days := if offset == "" then Ok(0) else PyIntOf(Str(offset));
      match days
      case Raised(e) => Raised(e)
      case Ok(k) =>
        AddDaysOrdinal(today, k);
        (match AddDays(today, k)
         case None => Raised("OverflowError")
         case Some(d) => Ok(Str(FormatMdY(d))))
    else Ok(v)
  }

  /** "__TODAY__" followed by the text of an integer is the date that many days away, and reads back as it. */
  lemma PlaceholderOffset(today: Date, k: int)
    requires Valid(today) && AddDays(today, k).Some?
    ensures ResolvePlaceholder(Str(TodayMarker + IntToString(k)), today).Ok?
    ensures ResolvePlaceholder(Str(TodayMarker + IntToString(k)), today).value.Str?
    ensures ParseMdY(ResolvePlaceholder(Str(TodayMarker + IntToString(k)), today).value.s) == AddDays(today, k)
  {
    var t := IntToString(k);
    OffsetText(k);
    IntTextReadsBack(k);
    var d := AddDays(today, k).value;
    AddDaysOrdinal(today, k);
    ResolvedOffset(TodayMarker + t, t, k, today, d);
    ParseFormatted(d);
  }

  /** A marked text whose offset reads as `k` resolves to the date `k` days away. */
  lemma ResolvedOffset(s: string, t: string, k: int, today: Date, d: Date)
    requires Valid(today) && IsPrefix(TodayMarker, s)
    requires RemoveAll(s, TodayMarker) == t && t != "" && PyIntOf(Str(t)) == Ok(k)
    requires AddDays(today, k) == Some(d) && Valid(d)
    ensures ResolvePlaceholder(Str(s), today) == Ok(Str(FormatMdY(d)))
  {
  }

  /** The bare marker is today's date. */
  lemma PlaceholderToday(today: Date)
    requires Valid(today)
    ensures ResolvePlaceholder(Str(TodayMarker), today) == Ok(Str(FormatMdY(today)))
  {
    assert IsPrefix(TodayMarker, TodayMarker);
    assert TodayMarker[|TodayMarker|..] == "";
  }

  /** Removing the marker from "__TODAY__" and an integer's text leaves that text. */
  lemma OffsetText(k: int)
    ensures IsPrefix(TodayMarker, TodayMarker + IntToString(k))
    ensures RemoveAll(TodayMarker + IntToString(k), TodayMarker) == IntToString(k)
  {
    var t := IntToString(k);
    var s := TodayMarker + t;
    assert IsPrefix(TodayMarker, s);
    assert s[|TodayMarker|..] == t;
    NatToStringDigits(if k < 0 then -k else k);
    RemoveAllAbsent(t, TodayMarker);
  }

  // ------------------------------------------------------------- the rows

  /** A fixture row: a list of values, or a mapping from column letters to values. */
  datatype RowSpec = Cells(values: seq<Scalar>) | Lettered(items: seq<(string, Scalar)>)

  /** `list(map(str, row))`: a mapping row met here gives its keys. */
  function Stringified(row: RowSpec): (r: seq<string>)
    ensures row.Cells? ==> |r| == |row.values| && forall i :: 0 <= i < |r| ==> r[i] == PyStr(row.values[i])
    ensures row.Lettered? ==> |r| == |row.items| && forall i :: 0 <= i < |r| ==> r[i] == row.items[i].0
  {
    match row
    case Cells(values) => seq(|values|, i requires 0 <= i < |values| => PyStr(values[i]))
    case Lettered(items) => seq(|items|, i requires 0 <= i < |items| => items[i].0)
  }

  /** The widest column the letters of `items` name, starting from `acc`; a ValueError for a bad letter. */
  function WidestIn(items: seq<(string, Scalar)>, acc: int): (r: Result<int>)
    ensures r.Ok? ==> acc <= r.value
    ensures r.Ok? ==> Fits(items, r.value)
    ensures r.Ok? ==> r.value == acc || exists j :: 0 <= j < |items| && ColumnIndex(items[j].0) == Ok(r.value)
    ensures r.Raised? <==> exists j :: 0 <= j < |items| && ColumnIndex(items[j].0).Raised?
  {
    if items == [] then Ok(acc)
    else
      match ColumnIndex(items[0].0)
      case Raised(e) => Raised(e)
      case Ok(idx) =>
        var r := WidestIn(items[1..], if idx > acc then idx else acc);
        assert forall j :: 1 <= j < |items| ==> items[j] == items[1..][j - 1];
        r
  }

  /** Every letter of `items` names a column, and none past `width`. */
  predicate Fits(items: seq<(string, Scalar)>, width: int) {
    forall j :: 0 <= j < |items| ==> ColumnIndex(items[j].0).Ok? && ColumnIndex(items[j].0).value <= width
  }

  lemma FitsTail(items: seq<(string, Scalar)>, width: int)
    requires items != [] && Fits(items, width)
    ensures ColumnIndex(items[0].0).Ok? && 1 <= ColumnIndex(items[0].0).value <= width
    ensures Fits(items[1..], width)
  {
    assert forall j :: 1 <= j < |items| ==> items[j] == items[1..][j - 1];
  }

  /** The first loop of `_normalize_sheet_rows`: every row must be a mapping and every letter valid. */
  function Widest(rows: seq<RowSpec>, acc: int): (r: Result<int>)
    ensures r.Ok? ==> acc <= r.value && Accepted(rows, r.value)
  {
    if rows == [] then Ok(acc)
    else if rows[0].Cells? then Raised("AttributeError")
    else
      match WidestIn(rows[0].items, acc)
      case Raised(e) => Raised(e)
      case Ok(w) =>
        var r := Widest(rows[1..], w);
        if r.Ok? then AcceptedCons(rows, r.value); r else r
  }

  /** Some letter of some mapping row names column `w`. */
  predicate Attained(rows: seq<RowSpec>, w: int) {
    exists i, j :: 0 <= i < |rows| && rows[i].Lettered? && 0 <= j < |rows[i].items| && ColumnIndex(rows[i].items[j].0) == Ok(w)
  }

  /**
   * The width the first loop computes is a maximum that is reached: it is
   * `acc` itself or the column of some letter (and `Widest` bounds them all).
   */
  lemma {:induction false} WidestAttained(rows: seq<RowSpec>, acc: int)
    requires Widest(rows, acc).Ok?
    ensures Widest(rows, acc).value == acc || Attained(rows, Widest(rows, acc).value)
    decreases |rows|
  {
    if rows != [] {
      var w0 := WidestIn(rows[0].items, acc).value;
      var w := Widest(rows, acc).value;
      assert Widest(rows, acc) == Widest(rows[1..], w0);
      WidestAttained(rows[1..], w0);
      if w != w0 {
        var i, j :| 0 <= i < |rows[1..]| && rows[1..][i].Lettered? && 0 <= j < |rows[1..][i].items| &&
                    ColumnIndex(rows[1..][i].items[j].0) == Ok(w);
        assert rows[i + 1] == rows[1..][i];
      } else if w0 != acc {
        var j :| 0 <= j < |rows[0].items| && ColumnIndex(rows[0].items[j].0) == Ok(w0);
        assert 0 < |rows| && rows[0].Lettered?;
      }
    }
  }

  method WidestColumn(rows: seq<RowSpec>, minColumns: int) returns (r: Result<int>)
    ensures r == Widest(rows, minColumns)
  {
    var maxCol := minColumns;
    var i := 0;
    while i < |rows|
      invariant 0 <= i <= |rows|
      invariant Widest(rows, minColumns) == Widest(rows[i..], maxCol)
    {
      assert rows[i..][0] == rows[i] && rows[i..][1..] == rows[i + 1..];
      if rows[i].Cells? {
        return Raised("AttributeError");
      }
      var items := rows[i].items;
      var acc := maxCol;
      var j := 0;
      while j < |items|
        invariant 0 <= j <= |items|
        invariant WidestIn(items, acc) == WidestIn(items[j..], maxCol)
      {
        assert items[j..][0] == items[j] && items[j..][1..] == items[j + 1..];
        var idx := ColumnIndex(items[j].0);
        if idx.Raised? {
          return Raised(idx.error);
        }
        if idx.value > maxCol {
          maxCol := idx.value;
        }
        j := j + 1;
      }
      i := i + 1;
    }
    return Ok(maxCol);
  }

  /**
   * The second loop's body for one row: each value written, resolved and
   * stringified, at its letter's place. A bad letter is a ValueError, and a
   * letter past the row's width an IndexError once the value is resolved.
   */
  function Fill(values: seq<string>, items: seq<(string, Scalar)>, today: Date): (r: Result<seq<string>>)
    requires Valid(today)
    ensures r.Ok? ==> |r.value| == |values|
    decreases |items|
  {
    if items == [] then Ok(values)
    else
      match Place(values, items[0], today)
      case Raised(e) => Raised(e)
      case Ok(next) => Fill(next, items[1..], today)
  }

  /** `values[column_index_from_string(letter) - 1] = str(_resolve_placeholder(value))` for one item. */
  function Place(values: seq<string>, item: (string, Scalar), today: Date): (r: Result<seq<string>>)
    requires Valid(today)
    ensures r.Ok? ==> |r.value| == |values|
  {
    match ColumnIndex(item.0)
    case Raised(e) => Raised(e)
    case Ok(col) =>
      match ResolvePlaceholder(item.1, today)
      case Raised(e) => Raised(e)
      case Ok(v) =>
        if col > |values| then Raised("IndexError")
        else Ok(values[col - 1 := PyStr(v)])
  }

  /** Letters the first loop has accepted never fail: only resolving a value can. */
  lemma {:induction false} FillFits(values: seq<string>, items: seq<(string, Scalar)>, today: Date)
    requires Valid(today) && Fits(items, |values|)
    ensures Fill(values, items, today).Raised? <==>
              exists j :: 0 <= j < |items| && ResolvePlaceholder(items[j].1, today).Raised?
    decreases |items|
  {
    if items != [] {
      FitsTail(items, |values|);
      if ResolvePlaceholder(items[0].1, today).Ok? {
        var next := Place(values, items[0], today).value;
        FillFits(next, items[1..], today);
        assert forall j :: 1 <= j < |items| ==> items[j] == items[1..][j - 1];
        if Fill(values, items, today).Raised? {
          var j :| 0 <= j < |items[1..]| && ResolvePlaceholder(items[1..][j].1, today).Raised?;
          assert items[1..][j] == items[j + 1];
        }
      }
    }
  }

  /** The last value a row's items give column `col`, if any. */
  function LastFor(items: seq<(string, Scalar)>, col: int): Option<Scalar> {
    if items == [] then None
    else
      var later := LastFor(items[1..], col);
      if later.Some? then later
      else if ColumnIndex(items[0].0) == Ok(col) then Some(items[0].1)
      else None
  }

  /**
   * Where each value lands: a column named by some item holds the last such
   * item's value, resolved and stringified; every other column keeps its text.
   */
  lemma {:induction false} FillPlaces(values: seq<string>, items: seq<(string, Scalar)>, today: Date, c: nat)
    requires Valid(today)
    requires Fill(values, items, today).Ok? && c < |values|
    ensures LastFor(items, c + 1).None? ==> Fill(values, items, today).value[c] == values[c]
    ensures LastFor(items, c + 1).Some? ==>
              ResolvePlaceholder(LastFor(items, c + 1).value, today).Ok? &&
              Fill(values, items, today).value[c] == PyStr(ResolvePlaceholder(LastFor(items, c + 1).value, today).value)
    decreases |items|
  {
    if items != [] {
      var next := Place(values, items[0], today).value;
      assert Fill(values, items, today) == Fill(next, items[1..], today);
      PlaceCell(values, items[0], today, c);
      FillPlaces(next, items[1..], today, c);
    }
  }

  lemma PlaceCell(values: seq<string>, item: (string, Scalar), today: Date, c: nat)
    requires Valid(today)
    requires Place(values, item, today).Ok? && c < |values|
    ensures ColumnIndex(item.0) == Ok(c + 1) ==>
              ResolvePlaceholder(item.1, today).Ok? &&
              Place(values, item, today).value[c] == PyStr(ResolvePlaceholder(item.1, today).value)
    ensures ColumnIndex(item.0) != Ok(c + 1) ==> Place(values, item, today).value[c] == values[c]
  {
  }

  method FillRow(items: seq<(string, Scalar)>, width: nat, today: Date) returns (r: Result<seq<string>>)
    requires Valid(today)
    ensures r == Fill(Blank(width), items, today)
  {
    var values := new string[width](_ => "");
    assert values[..] == Blank(width);
    assert items[0..] == items;
    var j := 0;
    while j < |items|
      invariant 0 <= j <= |items|
      invariant values.Length == width
      invariant Fill(Blank(width), items, today) == Fill(values[..], items[j..], today)
    {
      FillStep(values[..], items, j, today);
      var placed := PlaceItem(values, items[j], today);
      if placed.Raised? {
        return Raised(placed.error);
      }
      j := j + 1;
    }
    return Ok(values[..]);
  }

  /** One turn of the inner loop: the item's value written in place at its letter's column, or the error it raises. */
  method PlaceItem(values: array<string>, item: (string, Scalar), today: Date) returns (r: Result<()>)
    requires Valid(today)
    modifies values
    ensures r.Raised? ==> Place(old(values[..]), item, today) == Raised(r.error)
    ensures r.Ok? ==> Place(old(values[..]), item, today) == Ok(values[..])
  {
    var idx := ColumnIndex(item.0);
    if idx.Raised? {
      return Raised(idx.error);
    }
    var resolved := ResolvePlaceholder(item.1, today);
    if resolved.Raised? {
      return Raised(resolved.error);
    }
    if idx.value > values.Length {
      return Raised("IndexError");
    }
    values[idx.value - 1] := PyStr(resolved.value);
    return Ok(());
  }

  /** Item `j` of a row: its value written at its letter's place, or the error that stops the row. */
  lemma FillStep(values: seq<string>, items: seq<(string, Scalar)>, j: nat, today: Date)
    requires Valid(today) && j < |items|
    ensures Place(values, items[j], today).Raised? ==>
              Fill(values, items[j..], today) == Raised(Place(values, items[j], today).error)
    ensures Place(values, items[j], today).Ok? ==>
              Fill(values, items[j..], today) == Fill(Place(values, items[j], today).value, items[j + 1..], today)
  {
    assert items[j..][0] == items[j] && items[j..][1..] == items[j + 1..];
  }

  /** `[""] * n`. */
  function Blank(n: nat): (r: seq<string>)
    ensures |r| == n && forall i :: 0 <= i < n ==> r[i] == ""
  {
    seq(n, _ => "")
  }

  /** What the first loop establishes: mapping rows whose letters all name columns up to `width`. */
  predicate Accepted(rows: seq<RowSpec>, width: int) {
    forall i :: 0 <= i < |rows| ==> rows[i].Lettered? && Fits(rows[i].items, width)
  }

  lemma AcceptedCons(rows: seq<RowSpec>, width: int)
    requires rows != [] && rows[0].Lettered? && Accepted(rows[1..], width)
    requires Fits(rows[0].items, width)
    ensures Accepted(rows, width)
  {
    assert forall i :: 1 <= i < |rows| ==> rows[i] == rows[1..][i - 1];
  }

  /** `rows` already normalised, in front of the rest. */
  function Prepend(done: seq<seq<string>>, rest: Result<seq<seq<string>>>): Result<seq<seq<string>>> {
    match rest
    case Raised(e) => Raised(e)
    case Ok(r) => Ok(done + r)
  }

  lemma PrependNothing(rest: Result<seq<seq<string>>>)
    ensures Prepend([], rest) == rest
  {
    if rest.Ok? {
      assert [] + rest.value == rest.value;
    }
  }

  /** The second loop of `_normalize_sheet_rows`: a list row there has no `.items()`. */
  function FillAll(rows: seq<RowSpec>, width: nat, today: Date): (r: Result<seq<seq<string>>>)
    requires Valid(today)
    ensures r.Ok? ==> |r.value| == |rows|
    ensures r.Ok? ==> forall i :: 0 <= i < |rows| ==> rows[i].Lettered? && Fill(Blank(width), rows[i].items, today) == Ok(r.value[i])
  {
    if rows == [] then Ok([])
    else if rows[0].Cells? then Raised("AttributeError")
    else
      match Fill(Blank(width), rows[0].items, today)
      case Raised(e) => Raised(e)
      case Ok(first) =>
        assert forall i :: 1 <= i < |rows| ==> rows[i] == rows[1..][i - 1];
        match FillAll(rows[1..], width, today)
        case Raised(e) => Raised(e)
        case Ok(rest) => Ok([first] + rest)
  }

  /** One turn of the second loop: the first remaining row is filled, or its error ends the loop. */
  lemma FillAllStep(rows: seq<RowSpec>, width: nat, today: Date, done: seq<seq<string>>)
    requires Valid(today) && rows != [] && rows[0].Lettered?
    ensures Fill(Blank(width), rows[0].items, today).Raised? ==>
              Prepend(done, FillAll(rows, width, today)) == Raised(Fill(Blank(width), rows[0].items, today).error)
    ensures Fill(Blank(width), rows[0].items, today).Ok? ==>
              Prepend(done, FillAll(rows, width, today)) ==
              Prepend(done + [Fill(Blank(width), rows[0].items, today).value], FillAll(rows[1..], width, today))
  {
    var rest := FillAll(rows[1..], width, today);
    if Fill(Blank(width), rows[0].items, today).Ok? && rest.Ok? {
      var first := Fill(Blank(width), rows[0].items, today).value;
      assert done + ([first] + rest.value) == done + [first] + rest.value;
    }
  }

  /** `_normalize_sheet_rows(rows, min_columns=minColumns)`. */
  function Normalized(rows: seq<RowSpec>, minColumns: int, today: Date): (r: Result<seq<seq<string>>>)
    requires Valid(today)
  {
    if rows == [] then Ok([])
    else if rows[0].Cells? then Ok(seq(|rows|, i requires 0 <= i < |rows| => Stringified(rows[i])))
    else
      match Widest(rows, minColumns)
      case Raised(e) => Raised(e)
      case Ok(w) => FillAll(rows, if w < 0 then 0 else w, today)
  }

  method NormalizeSheetRows(rows: seq<RowSpec>, minColumns: int, today: Date) returns (r: Result<seq<seq<string>>>)
    requires Valid(today)
    ensures r == Normalized(rows, minColumns, today)
  {
    if |rows| == 0 {
      return Ok([]);
    }
    if rows[0].Cells? {
      return Ok(seq(|rows|, i requires 0 <= i < |rows| => Stringified(rows[i])));
    }
    var maxCol := WidestColumn(rows, minColumns);
    if maxCol.Raised? {
      return Raised(maxCol.error);
    }
    var width: nat := if maxCol.value < 0 then 0 else maxCol.value;
    assert forall k :: 0 <= k < |rows| ==> rows[k].Lettered?;
    var normalized: seq<seq<string>> := [];
    var i := 0;
    assert rows[i..] == rows;
    PrependNothing(FillAll(rows, width, today));
    while i < |rows|
      invariant 0 <= i <= |rows|
      invariant FillAll(rows, width, today) == Prepend(normalized, FillAll(rows[i..], width, today))
    {
      var values := FillRow(rows[i].items, width, today);
      assert rows[i..][0] == rows[i] && rows[i..][1..] == rows[i + 1..];
      FillAllStep(rows[i..], width, today, normalized);
      if values.Raised? {
        return Raised(values.error);
      }
      normalized := normalized + [values.value];
      i := i + 1;
    }
    assert rows[i..] == [] && normalized + [] == normalized;
    assert Normalized(rows, minColumns, today) == FillAll(rows, width, today);
    return Ok(normalized);
  }

  /**
   * Every normalised mapping row is as wide as the widest letter or the
   * minimum, whichever is larger, and holds its values at their letters'
   * places with "" elsewhere.
   */
  lemma NormalizedGrid(rows: seq<RowSpec>, minColumns: int, today: Date, i: nat, c: nat)
    requires Valid(today)
    requires Normalized(rows, minColumns, today).Ok? && i < |rows| && rows[0].Lettered?
    ensures var grid := Normalized(rows, minColumns, today).value;
            var w := Widest(rows, minColumns).value;
            |grid| == |rows| && |grid[i]| == (if w < 0 then 0 else w) && minColumns <= w
    ensures var w := Widest(rows, minColumns).value;
            Accepted(rows, w) && (w == minColumns || Attained(rows, w))
    ensures var grid := Normalized(rows, minColumns, today).value;
            c < |grid[i]| ==>
              (LastFor(rows[i].items, c + 1).None? ==> grid[i][c] == "") &&
              (LastFor(rows[i].items, c + 1).Some? ==>
                 ResolvePlaceholder(LastFor(rows[i].items, c + 1).value, today).Ok? &&
                 grid[i][c] == PyStr(ResolvePlaceholder(LastFor(rows[i].items, c + 1).value, today).value))
  {
    var w := Widest(rows, minColumns).value;
    var width: nat := if w < 0 then 0 else w;
    var grid := Normalized(rows, minColumns, today).value;
    WidestAttained(rows, minColumns);
    assert Fill(Blank(width), rows[i].items, today) == Ok(grid[i]);
    if c < |grid[i]| {
      FillPlaces(Blank(width), rows[i].items, today, c);
    }
  }

  /** Rows given as lists are only stringified: no widening, no placeholder. */
  lemma ListRowsKept(rows: seq<RowSpec>, minColumns: int, today: Date, i: nat)
    requires Valid(today) && rows != [] && rows[0].Cells? && i < |rows| && rows[i].Cells?
    ensures Normalized(rows, minColumns, today).Ok?
    ensures Normalized(rows, minColumns, today).value[i] == seq(|rows[i].values|, k requires 0 <= k < |rows[i].values| => PyStr(rows[i].values[k]))
  {
  }

  /** `sheet_data.get("columns", 26)`, where a column letter names its index. */
  datatype ColumnsSpec = Absent | Count(n: int) | Letters(s: string)

  function MinColumns(columns: ColumnsSpec): (r: Result<int>)
    ensures columns.Absent? ==> r == Ok(26)
    ensures columns.Letters? ==> r == ColumnIndex(columns.s)
  {
    match columns
    case Absent => Ok(26)
    case Count(n) => Ok(n)
    case Letters(s) => ColumnIndex(s)
  }

  /** A letter minimum reads as its column: "Z" is the default 26. */
  lemma LetterMinimum()
    ensures MinColumns(Letters("Z")) == MinColumns(Absent)
    ensures MinColumns(Letters("ab")) == Ok(28)
  {
    SingleLetterIndex('Z');
    var u := Upper("ab");
    assert u == "AB" by {
      assert u[0] == 'A' && u[1] == 'B';
    }
    assert LabelValue("AB") == 28 by {
      assert "AB"[..1] == "A" && "A"[..0] == [];
    }
  }
}
