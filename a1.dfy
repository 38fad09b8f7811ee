/**
 * Spreadsheet column letters: the `rowcol_to_a1` stand-in of the test
 * configuration (unit_tests/conftest.py) and the letter-to-index conversion
 * the fixture loader takes from openpyxl (`column_index_from_string`).
 */
module A1 {
  import opened Wrappers
  import opened PyText

  predicate IsUpperLetter(c: char) {
    'A' <= c <= 'Z'
  }

  predicate AllUpperLetters(s: string) {
    forall i :: 0 <= i < |s| ==> IsUpperLetter(s[i])
  }

  /** `chr(65 + d)`. */
  function Letter(d: nat): (c: char)
    requires d < 26
    ensures IsUpperLetter(c)
  {
    (65 + d) as char
  }

  /** The bijective base-26 label of a column: 1 is "A", 26 is "Z", 27 is "AA"; nothing for col <= 0. */
  function Label(col: int): string
    decreases col
  {
    if col <= 0 then "" else Label((col - 1) / 26) + [Letter((col - 1) % 26)]
  }

  /** The column a label names, A = 1 .. Z = 26 per position. */
  function LabelValue(s: string): int
    requires AllUpperLetters(s)
  {
    if s == [] then 0 else 26 * LabelValue(s[..|s| - 1]) + (s[|s| - 1] as int - 'A' as int + 1)
  }

  /**
   * `rowcol_to_a1(row, col)`: repeatedly take `divmod(col - 1, 26)`, prepend the
   * letter of the remainder, and finally append the row number.
   */
  method RowColToA1(row: int, col: int) returns (a1: string)
    ensures a1 == Label(col) + IntToString(row)
  {
    var letters := "";
    var c := col;
    while c > 0
      invariant Label(col) == Label(c) + letters
      decreases c
    {
      var rem := (c - 1) % 26;
      c := (c - 1) / 26;
      letters := [Letter(rem)] + letters;
    }
    a1 := letters + IntToString(row);
  }

  /** Every label is made of capital letters, and it is empty exactly when col <= 0. */
  lemma {:induction false} LabelAlphabet(col: int)
    ensures AllUpperLetters(Label(col))
    ensures Label(col) == [] <==> col <= 0
    decreases col
  {
    if col > 0 {
      LabelAlphabet((col - 1) / 26);
    }
  }

  /** Decoding a label gives back the column it was made from. */
  lemma {:induction false} LabelRoundTrip(col: nat)
    ensures AllUpperLetters(Label(col)) && LabelValue(Label(col)) == col
    decreases col
  {
    LabelAlphabet(col);
    if col > 0 {
      var q, r := (col - 1) / 26, (col - 1) % 26;
      LabelRoundTrip(q);
      var s := Label(col);
      assert s[..|s| - 1] == Label(q);
      assert s[|s| - 1] as int - 'A' as int + 1 == r + 1;
    }
  }

  /** Every non-empty string of capital letters is the label of its value. */
  lemma {:induction false} ValueRoundTrip(s: string)
    requires AllUpperLetters(s)
    ensures LabelValue(s) >= (if s == [] then 0 else 1)
    ensures Label(LabelValue(s)) == s
  {
    if s != [] {
      var init := s[..|s| - 1];
      ValueRoundTrip(init);
      var d := s[|s| - 1] as int - 'A' as int;
      var v := LabelValue(s);
      assert v == 26 * LabelValue(init) + d + 1;
      assert (v - 1) / 26 == LabelValue(init);
      assert (v - 1) % 26 == d;
      assert Letter(d) == s[|s| - 1];
      assert s == init + [s[|s| - 1]];
    }
  }

  lemma LabelExamples()
    ensures Label(1) == "A" && Label(26) == "Z" && Label(27) == "AA"
  {
    assert Label(0) == "";
    assert Label(1) == Label(0) + [Letter(0)];
    assert Label(26) == Label(0) + [Letter(25)];
    assert Label(27) == Label(1) + [Letter(0)];
  }

  /** Labels of positive columns are distinct, so the encoding is one-to-one. */
  lemma LabelInjective(a: nat, b: nat)
    requires Label(a) == Label(b)
    ensures a == b
  {
    LabelRoundTrip(a);
    LabelRoundTrip(b);
  }

  /**
   * openpyxl's `column_index_from_string`: the letters are upper-cased and must
   * name one of the columns "A" .. "ZZZ"; anything else raises ValueError.
   */
  function ColumnIndex(letters: string): (r: Result<int>)
    ensures r.Ok? ==> 1 <= r.value
  {
    var u := Upper(letters);
    if 1 <= |u| <= 3 && AllUpperLetters(u) then
      ValueRoundTrip(u);
      Ok(LabelValue(u))
    else Raised("ValueError")
  }

  /**
   * The conversion succeeds exactly for one to three letters, in either case,
   * and then gives the column whose label is those letters upper-cased.
   */
  lemma ColumnIndexMeaning(letters: string)
    ensures ColumnIndex(letters).Ok? <==> (1 <= |letters| <= 3 && AllUpperLetters(Upper(letters)))
    ensures ColumnIndex(letters).Ok? ==> Label(ColumnIndex(letters).value) == Upper(letters)
  {
    var u := Upper(letters);
    if 1 <= |u| <= 3 && AllUpperLetters(u) {
      ValueRoundTrip(u);
    }
  }

  /** Reading back the label of a column in "A" .. "ZZZ" gives the column. */
  lemma ColumnIndexOfLabel(col: nat)
    requires 1 <= col <= 18278
    ensures ColumnIndex(Label(col)) == Ok(col)
  {
    LabelRoundTrip(col);
    LabelAlphabet(col);
    assert LastColumn(3) == 18278;
    LabelLength(col, 3);
    var s := Label(col);
    assert Upper(s) == s;
  }

  /** A single capital letter names its place in the alphabet, A = 1. */
  lemma SingleLetterIndex(c: char)
    requires IsUpperLetter(c)
    ensures ColumnIndex([c]) == Ok(c as int - 'A' as int + 1)
  {
    var u := Upper([c]);
    assert u[0] == c;
    assert u == [c];
    assert u[..0] == [];
    assert LabelValue(u) == c as int - 'A' as int + 1;
  }

  /** The last column whose label has at most `n` letters: 0, 26 ("Z"), 702 ("ZZ"), 18278 ("ZZZ"). */
  function LastColumn(n: nat): nat {
    if n == 0 then 0 else 26 * LastColumn(n - 1) + 26
  }

  lemma {:induction false} LabelLength(col: int, n: nat)
    requires col <= LastColumn(n)
    ensures |Label(col)| <= n
  {
    if col > 0 {
      LabelLength((col - 1) / 26, n - 1);
    }
  }
}
