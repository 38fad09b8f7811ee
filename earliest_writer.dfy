/**
 * The writer of sheets_writer.py, the first revision: the category table is
 * inline, the Discord user ".deebers" is always asked for a card, and every
 * other author logs for Hannah, with replies that carry no status glyph.
 */
module EarliestWriter {
  import opened Wrappers
  import opened PyText
  import opened Schema
  import opened Sheet
  import opened Entities
  import opened Writer

  /** The one user whose expenses need a card choice. */
  const CardUser := ".deebers"

  /** The person every other author's expenses are logged for. */
  const DefaultPerson := "Hannah"

  /** `write_expense_to_sheet` up to its effect, for the author's name and a sheet that was or was not fetched. */
  function ExpenseOutcome(data: Data, sheetFound: bool, user: string, stamp: string): Outcome {
    match SubscriptLower(data, "category")
    case Raised(e) => Crash(e)
    case Ok(category) =>
      if Get(EarliestConfig, category).None? then Answer("Unknown category: " + category)
      else if !sheetFound then Answer("Error accessing expense sheet.")
      else if user == CardUser then Defer(category)
      else SinglePerson(data, category, DefaultPerson, stamp, false)
  }

  /** The card user is always asked for a card once the category and the sheet are good. */
  lemma CardUserDefers(data: Data, stamp: string)
    requires SubscriptLower(data, "category").Ok? && Get(EarliestConfig, SubscriptLower(data, "category").value).Some?
    ensures ExpenseOutcome(data, true, CardUser, stamp) == Defer(SubscriptLower(data, "category").value)
  {
  }

  lemma DefaultPersonStripped()
    ensures Strip(DefaultPerson) == DefaultPerson
  {
    StripUnchanged(DefaultPerson);
  }

  /** Every row another author appends is logged for Hannah, in a category of the table. */
  lemma OthersLogForHannah(data: Data, sheetFound: bool, user: string, stamp: string)
    requires ExpenseOutcome(data, sheetFound, user, stamp).Append?
    ensures var o := ExpenseOutcome(data, sheetFound, user, stamp);
      user != CardUser && o.entry.person == DefaultPerson && Get(EarliestConfig, o.category).Some?
  {
    var category := SubscriptLower(data, "category").value;
    SinglePersonAppends(data, category, DefaultPerson, stamp, false);
    DefaultPersonStripped();
  }

  /**
   * `write_expense_to_sheet(data, message)` for an author called `author`.
   * A `ws` of null stands for a sheet that could not be fetched.
   */
  method WriteExpenseToSheet(store: PendingStore, ws: InMemoryWorksheet?, data: Data, author: string,
                             mention: string, stamp: string)
    returns (reply: Result<Option<string>>)
    modifies store, ws
    ensures var o := ExpenseOutcome(data, ws != null, Lower(author), stamp);
      Effect(o, EarliestConfig, old(RowsOf(ws)), RowsOf(ws), old(store.entries), store.entries,
             Lower(author), Pending(data, ws, None), mention + ", which card did you use?", reply)
  {
    var user := Lower(author);
    var o := ExpenseOutcome(data, ws != null, user, stamp);
    if ws == null {
      reply := if o.Crash? then Raised(o.error) else Ok(Some(o.text));
      return;
    }
    if o.Append? {
      OthersLogForHannah(data, true, user, stamp);
      EarliestConfigSame();
      ConfigWellFormed(o.category);
    }
    reply := Perform(o, EarliestConfig, store, ws, user, Pending(data, ws, None), mention + ", which card did you use?");
  }

  /**
   * `write_to_sheet(data, message)`. The income sheet is fetched once
   * outside any handler before the guarded fetch, so a failing fetch raises
   * out of the writer; the model takes the fetched sheet.
   */
  method WriteToSheet(store: PendingStore, expenseWs: InMemoryWorksheet?, incomeWs: InMemoryWorksheet, data: Data,
                      author: string, mention: string, stamp: string)
    returns (reply: Result<Option<string>>)
    requires expenseWs != incomeWs
    modifies store, expenseWs, incomeWs
    ensures IsIncome(data).Raised? ==>
      reply == Raised("KeyError") && store.entries == old(store.entries) &&
      RowsOf(expenseWs) == old(RowsOf(expenseWs)) && incomeWs.rows == old(incomeWs.rows)
    ensures IsIncome(data) == Ok(true) ==>
      store.entries == old(store.entries) && RowsOf(expenseWs) == old(RowsOf(expenseWs)) &&
      incomeWs.rows == IncomeRows(old(incomeWs.rows), data) &&
      reply == Ok(if IncomeIndex(old(incomeWs.rows)).Some? then Some(IncomeReply(data)) else None)
    ensures IsIncome(data) == Ok(false) ==>
      incomeWs.rows == old(incomeWs.rows) &&
      var o := ExpenseOutcome(data, expenseWs != null, Lower(author), stamp);
      Effect(o, EarliestConfig, old(RowsOf(expenseWs)), RowsOf(expenseWs), old(store.entries), store.entries,
             Lower(author), Pending(data, expenseWs, None), mention + ", which card did you use?", reply)
  {
    var route := IsIncome(data);
    if route.Raised? {
      return Raised(route.error);
    }
    if route.value {
      var r := WriteIncomeToSheet(incomeWs, data);
      return Ok(r);
    }
    reply := WriteExpenseToSheet(store, expenseWs, data, author, mention, stamp);
  }
}
