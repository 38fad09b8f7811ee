/**
 * The ledger layout shared by the writers and the analytics: for each expense
 * category the first data row and the column letter of each field
 * (src/bookiebot/sheets/config.py), and the identical table the earliest
 * writer declares inline (sheets_writer.py).
 */
module Schema {
  import opened Wrappers
  import opened A1

  /** One category block: the first data row and its (field, column letter) pairs, in order. */
  datatype Category = Category(startRow: int, columns: seq<(string, string)>)

  /** A dictionary literal with string keys, in insertion order. */
  type Table<V> = seq<(string, V)>

  /** `d.get(key)`: the value stored under `key`, if any (the first, for a literal without repeats). */
  function Get<V>(d: Table<V>, key: string): (r: Option<V>)
    ensures r.Some? <==> exists i :: 0 <= i < |d| && d[i].0 == key
    ensures r.Some? ==> exists i :: 0 <= i < |d| && d[i] == (key, r.value)
  {
    if d == [] then None
    else if d[0].0 == key then Some(d[0].1)
    else
      var r := Get(d[1..], key);
      assert forall i :: 1 <= i < |d| ==> d[i] == d[1..][i - 1];
      r
  }

  /** The position of the first occurrence of `key`. */
  function Position(keys: seq<string>, key: string): (r: Option<nat>)
    ensures r.Some? ==> r.value < |keys| && keys[r.value] == key
    ensures r.Some? ==> forall j :: 0 <= j < r.value ==> keys[j] != key
    ensures r.None? <==> key !in keys
  {
    if keys == [] then None
    else if keys[0] == key then Some(0)
    else match Position(keys[1..], key)
      case None => None
      case Some(k) => Some(k + 1)
  }

  function Keys<V>(d: Table<V>): (r: seq<string>)
    ensures |r| == |d| && forall i :: 0 <= i < |d| ==> r[i] == d[i].0
  {
    seq(|d|, i requires 0 <= i < |d| => d[i].0)
  }

  /** `get_category_columns` of src/bookiebot/sheets/config.py. */
  const Config: Table<Category> := [
    ("grocery", Category(3, [("date", "A"), ("amount", "B"), ("location", "C"), ("person", "D")])),
    ("gas", Category(3, [("date", "H"), ("amount", "I"), ("person", "J")])),
    ("food", Category(3, [("date", "N"), ("item", "O"), ("amount", "P"), ("location", "Q"), ("person", "R")])),
    ("shopping", Category(3, [("date", "V"), ("item", "W"), ("amount", "X"), ("location", "Y"), ("person", "Z")]))
  ]

  /** The copy of the table declared at the top of the earliest writer, sheets_writer.py. */
  const EarliestConfig: Table<Category> := [
    ("grocery", Category(3, [("date", "A"), ("amount", "B"), ("location", "C"), ("person", "D")])),
    ("gas", Category(3, [("date", "H"), ("amount", "I"), ("person", "J")])),
    ("food", Category(3, [("date", "N"), ("item", "O"), ("amount", "P"), ("location", "Q"), ("person", "R")])),
    ("shopping", Category(3, [("date", "V"), ("item", "W"), ("amount", "X"), ("location", "Y"), ("person", "Z")]))
  ]

  /** The 1-based column of a field of a category (`column_index_from_string` of its letter). */
  function Column(c: Category, field: string): Option<int> {
    match Get(c.columns, field)
    case None => None
    case Some(letter) => match ColumnIndex(letter) case Ok(v) => Some(v) case Raised(_) => None
  }

  /** Exactly the four categories, in this order, each starting at row 3. */
  lemma ConfigCategories()
    ensures Keys(Config) == ["grocery", "gas", "food", "shopping"]
    ensures forall i :: 0 <= i < |Config| ==> Config[i].1.startRow == 3
  {
  }

  /** Every column letter in the table is a single capital letter, so it names a column. */
  lemma ConfigLetters()
    ensures forall i :: 0 <= i < |Config| ==> OneLetterColumns(Config[i].1)
  {
  }

  /** Each column of `c` is named by one capital letter. */
  predicate OneLetterColumns(c: Category) {
    forall j :: 0 <= j < |c.columns| ==> |c.columns[j].1| == 1 && IsUpperLetter(c.columns[j].1[0])
  }

  /** The block of any configured category is named by single capital letters. */
  lemma ConfigEntryLetters(category: string)
    requires Get(Config, category).Some?
    ensures OneLetterColumns(Get(Config, category).value)
  {
    ConfigLetters();
    var i :| 0 <= i < |Config| && Config[i] == (category, Get(Config, category).value);
  }

  /** Every category maps date, amount and person. */
  lemma RequiredFields(category: string)
    requires Get(Config, category).Some?
    ensures Get(Get(Config, category).value.columns, "date").Some?
    ensures Get(Get(Config, category).value.columns, "amount").Some?
    ensures Get(Get(Config, category).value.columns, "person").Some?
  {
    var v := Get(Config, category).value;
    var i :| 0 <= i < |Config| && Config[i] == (category, v);
    assert v.columns[0].0 == "date";
    if i == 0 || i == 1 {
      assert v.columns[1].0 == "amount";
    } else {
      assert v.columns[2].0 == "amount";
    }
    assert v.columns[|v.columns| - 1].0 == "person";
  }

  /** Gas has neither an item nor a location column; grocery has a location but no item column. */
  lemma OptionalFields()
    ensures Get(Get(Config, "gas").value.columns, "item").None?
    ensures Get(Get(Config, "gas").value.columns, "location").None?
    ensures Get(Get(Config, "grocery").value.columns, "location").Some?
    ensures Get(Get(Config, "grocery").value.columns, "item").None?
  {
  }

  /**
   * No column letter is used twice anywhere in the table: within a category
   * the fields have distinct columns, and the blocks A-D, H-J, N-R and V-Z do
   * not overlap.
   */
  lemma ColumnsDistinct()
    ensures forall i, j, k, l ::
      (0 <= i < |Config| && 0 <= j < |Config[i].1.columns| &&
       0 <= k < |Config| && 0 <= l < |Config[k].1.columns| && (i, j) != (k, l))
      ==> Config[i].1.columns[j].1 != Config[k].1.columns[l].1
  {
  }

  /**
   * The fixed 0-based list indices the analytics read are the schema's own
   * columns: amounts B, I, P, X at 1, 8, 15, 23, and the food and shopping
   * locations Q and Y at 16 and 24.
   */
  lemma AnalyticsColumns()
    ensures Column(Config[0].1, "amount") == Some(1 + 1)
    ensures Column(Config[1].1, "amount") == Some(8 + 1)
    ensures Column(Config[2].1, "amount") == Some(15 + 1)
    ensures Column(Config[3].1, "amount") == Some(23 + 1)
    ensures Column(Config[2].1, "location") == Some(16 + 1)
    ensures Column(Config[3].1, "location") == Some(24 + 1)
    ensures Column(Config[0].1, "date") == Some(0 + 1)
  {
    AnalyticsLetters();
    LetterField(Config[0].1, "amount", 'B');
    LetterField(Config[1].1, "amount", 'I');
    LetterField(Config[2].1, "amount", 'P');
    LetterField(Config[3].1, "amount", 'X');
    LetterField(Config[2].1, "location", 'Q');
    LetterField(Config[3].1, "location", 'Y');
    LetterField(Config[0].1, "date", 'A');
  }

  /** A field stored under one capital letter lives in that letter's column. */
  lemma LetterField(c: Category, field: string, letter: char)
    requires Get(c.columns, field) == Some([letter]) && IsUpperLetter(letter)
    ensures Column(c, field) == Some(letter as int - 'A' as int + 1)
  {
    SingleLetterIndex(letter);
  }

  lemma AnalyticsLetters()
    ensures Get(Config, "grocery") == Some(Config[0].1) && Get(Config, "gas") == Some(Config[1].1)
    ensures Get(Config, "food") == Some(Config[2].1) && Get(Config, "shopping") == Some(Config[3].1)
    ensures Get(Config[0].1.columns, "amount") == Some("B")
    ensures Get(Config[1].1.columns, "amount") == Some("I")
    ensures Get(Config[2].1.columns, "amount") == Some("P")
    ensures Get(Config[3].1.columns, "amount") == Some("X")
    ensures Get(Config[2].1.columns, "location") == Some("Q")
    ensures Get(Config[3].1.columns, "location") == Some("Y")
    ensures Get(Config[0].1.columns, "date") == Some("A")
  {
  }

  /** The earliest writer's inline table is the configuration table. */
  lemma EarliestConfigSame()
    ensures EarliestConfig == Config
  {
  }
}
