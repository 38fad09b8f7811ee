/**
 * The writer of src/bookiebot/sheets_writer.py, the revision before
 * src/bookiebot/sheets/writer.py: the category is read with `data["category"]`
 * and neither stripped nor checked for emptiness, the author always acts,
 * and every person word goes to the resolver unchanged.
 */
module EarlierWriter {
  import opened Wrappers
  import opened PyText
  import opened Schema
  import opened Sheet
  import opened Entities
  import opened Writer

  /** `resolve_query_persons(user, person)`: the persons to log for, from the user and an optional explicit person. */
  type Resolver = (string, Option<string>) -> seq<string>

  /** `write_expense_to_sheet` up to its effect, for the author's name and a sheet that was or was not fetched. */
  function ExpenseOutcome(data: Data, sheetFound: bool, user: string, resolve: Resolver, stamp: string): Outcome {
    match SubscriptLower(data, "category")
    case Raised(e) => Crash(e)
    case Ok(category) =>
      if Get(Config, category).None? then Answer("❌ Unknown category: " + category)
      else if !sheetFound then Answer("Error accessing expense sheet.")
      else match StrippedText(Or(Lookup(data, "person"), Str("")))
        case Raised(e) => Crash(e)
        case Ok(person) => Resolved(data, category, person, resolve(user, if person == "" then None else Some(person)), stamp)
  }

  /** Without a category the request raises a KeyError before anything else happens. */
  lemma MissingCategoryRaises(data: Data, sheetFound: bool, user: string, resolve: Resolver, stamp: string)
    requires Get(data, "category").None?
    ensures ExpenseOutcome(data, sheetFound, user, resolve, stamp) == Crash("KeyError")
  {
  }

  /** The category is lower-cased but not stripped: " gas" is an unknown category. */
  lemma CategoryNotStripped(data: Data, sheetFound: bool, user: string, resolve: Resolver, stamp: string)
    requires Lookup(data, "category") == Str(" Gas")
    ensures ExpenseOutcome(data, sheetFound, user, resolve, stamp) == Answer("❌ Unknown category:  gas")
  {
    assert Lower(" Gas") == " gas";
    ConfigCategories();
    assert forall i :: 0 <= i < |Config| ==> Keys(Config)[i] != " gas";
  }

  /** Any non-blank person text, "both" and "total" included, goes to the resolver as an explicit person. */
  lemma PersonIsExplicit(data: Data, s: string, user: string, resolve: Resolver, stamp: string)
    requires Lookup(data, "person") == Str(s) && Strip(s) != ""
    requires SubscriptLower(data, "category").Ok? && Get(Config, SubscriptLower(data, "category").value).Some?
    ensures ExpenseOutcome(data, true, user, resolve, stamp) ==
      Resolved(data, SubscriptLower(data, "category").value, Strip(s), resolve(user, Some(Strip(s))), stamp)
  {
    StrippedOrEmpty(Str(s));
  }

  /** A row is only ever appended for a category of the schema. */
  lemma AppendsConfigured(data: Data, sheetFound: bool, user: string, resolve: Resolver, stamp: string)
    requires ExpenseOutcome(data, sheetFound, user, resolve, stamp).Append?
    ensures var o := ExpenseOutcome(data, sheetFound, user, resolve, stamp);
      Get(Config, o.category).Some? && SubscriptLower(data, "category") == Ok(o.category)
  {
    var category := SubscriptLower(data, "category").value;
    var person := StrippedText(Or(Lookup(data, "person"), Str(""))).value;
    var persons := resolve(user, if person == "" then None else Some(person));
    ResolvedSingle(data, category, person, persons, stamp);
  }

  /**
   * `write_expense_to_sheet(data, message)` for an author called `author`.
   * A `ws` of null stands for a sheet that could not be fetched.
   */
  method WriteExpenseToSheet(store: PendingStore, ws: InMemoryWorksheet?, data: Data, author: string,
                             mention: string, resolve: Resolver, stamp: string)
    returns (reply: Result<Option<string>>)
    modifies store, ws
    ensures var o := ExpenseOutcome(data, ws != null, Lower(author), resolve, stamp);
      Effect(o, Config, old(RowsOf(ws)), RowsOf(ws), old(store.entries), store.entries,
             Lower(author), Pending(data, ws, DeferredCategory(o)), mention + ", which card did you use?", reply)
  {
    var user := Lower(author);
    var o := ExpenseOutcome(data, ws != null, user, resolve, stamp);
    if ws == null {
      reply := if o.Crash? then Raised(o.error) else Ok(Some(o.text));
      return;
    }
    if o.Append? {
      AppendsConfigured(data, true, user, resolve, stamp);
      ConfigWellFormed(o.category);
    }
    reply := Perform(o, Config, store, ws, user, Pending(data, ws, DeferredCategory(o)), mention + ", which card did you use?");
  }

  /** `write_to_sheet(data, message)`: income entities go to the income sheet, all others to the expense path. */
  method WriteToSheet(store: PendingStore, expenseWs: InMemoryWorksheet?, incomeWs: InMemoryWorksheet?, data: Data,
                      author: string, mention: string, resolve: Resolver, stamp: string)
    returns (reply: Result<Option<string>>)
    requires expenseWs == null || expenseWs != incomeWs
    modifies store, expenseWs, incomeWs
    ensures IsIncome(data).Raised? ==>
      reply == Raised("KeyError") && store.entries == old(store.entries) &&
      RowsOf(expenseWs) == old(RowsOf(expenseWs)) && RowsOf(incomeWs) == old(RowsOf(incomeWs))
    ensures IsIncome(data) == Ok(true) ==>
      store.entries == old(store.entries) && RowsOf(expenseWs) == old(RowsOf(expenseWs)) &&
      (incomeWs == null ==> reply == Ok(Some("Error accessing income sheet."))) &&
      (incomeWs != null ==>
         (incomeWs.rows == IncomeRows(old(incomeWs.rows), data) &&
          reply == Ok(if IncomeIndex(old(incomeWs.rows)).Some? then Some(IncomeReply(data)) else None)))
    ensures IsIncome(data) == Ok(false) ==>
      RowsOf(incomeWs) == old(RowsOf(incomeWs)) &&
      var o := ExpenseOutcome(data, expenseWs != null, Lower(author), resolve, stamp);
      Effect(o, Config, old(RowsOf(expenseWs)), RowsOf(expenseWs), old(store.entries), store.entries,
             Lower(author), Pending(data, expenseWs, DeferredCategory(o)), mention + ", which card did you use?", reply)
  {
    var route := IsIncome(data);
    if route.Raised? {
      return Raised(route.error);
    }
    if route.value {
      var r := WriteIncomeToSheet(incomeWs, data);
      return Ok(r);
    }
    reply := WriteExpenseToSheet(store, expenseWs, data, author, mention, resolve, stamp);
  }
}
