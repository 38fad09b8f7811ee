/**
 * The reply routing of intent_handlers.py: `INTENT_HANDLERS` maps an intent
 * to its handler, `handle_intent` looks the intent up, and each query
 * handler awaits one query of sheets_utils.py and chooses its reply from
 * the result. The only effect of a handler is the reply it sends, so the
 * model splits a handler in two: the `Plan` it makes from the intent and
 * its entities (a reply sent at once, a hand-over to the writer, a query,
 * or an exception), and the reply it then builds from the query's answer.
 * Amounts are shown with `:.2f`, a parameter here (`fixed2`).
 */
module IntentHandlers {
  import opened Wrappers
  import opened PyText
  import opened Schema
  import opened Entities

  /** The handlers the table maps to. */
  datatype Handler =
    | WriteEntry | BurnRate | RentPaid | UtilitiesPaid | StudentLoanPaid | SpentAtStore
    | HighestCategory | TotalIncome | RemainingBudget | AverageDailySpend | Breakdown
    | TotalForCategory | LastPaymentTo | LargestSingle | TopN | SpentThisWeek
    | Projected | WeekendVsWeekday | NoSpendDays

  /** The keys of `INTENT_HANDLERS`, in order. */
  const HandlerKeys: seq<string> := [
    "log_expense", "log_income", "query_burn_rate", "query_rent_paid",
    "query_utilities_paid", "query_student_loans_paid", "query_total_spent_at_store",
    "query_highest_expense_category", "query_total_income", "query_remaining_budget",
    "query_average_daily_spend", "query_expense_breakdown_percentages", "query_total_for_category",
    "query_last_payment_to", "query_largest_single_expense", "query_top_n_expenses",
    "query_spent_this_week", "query_projected_spending", "query_weekend_vs_weekday",
    "query_no_spend_days"
  ]

  /** The handler under each key of `INTENT_HANDLERS`. */
  const Handlers: seq<Handler> := [
    WriteEntry, WriteEntry, BurnRate, RentPaid,
    UtilitiesPaid, StudentLoanPaid, SpentAtStore,
    HighestCategory, TotalIncome, RemainingBudget,
    AverageDailySpend, Breakdown, TotalForCategory,
    LastPaymentTo, LargestSingle, TopN,
    SpentThisWeek, Projected, WeekendVsWeekday,
    NoSpendDays
  ]

  /** `INTENT_HANDLERS.get(intent)`. */
  function HandlerFor(intent: string): (r: Option<Handler>)
    ensures r.None? <==> intent !in HandlerKeys
    ensures r.Some? ==> exists k :: 0 <= k < |HandlerKeys| && HandlerKeys[k] == intent && r.value == Handlers[k]
  {
    match Position(HandlerKeys, intent)
    case None => None
    case Some(k) => Some(Handlers[k])
  }

  /** The queries of sheets_utils.py the handlers await, with their arguments. */
  datatype Query =
    | BurnRateQ | RentPaidQ | UtilitiesPaidQ | StudentLoanPaidQ | StoreQ(store: string)
    | HighestCategoryQ | TotalIncomeQ | RemainingBudgetQ | AverageDailySpendQ | BreakdownQ
    | CategoryQ(category: string) | LargestQ | TopNQ(n: int) | WeekQ | ProjectedQ
    | WeekendQ | NoSpendQ

  /** What `handle_intent` does with an intent and its entities, before any query result. */
  datatype Plan =
    | Send(text: string)      // a reply sent without querying
    | Write(entities: Data)   // `write_to_sheet(entities, message)`
    | Run(query: Query)       // the query is awaited; its answer decides the reply
    | Fail(error: string)     // the handler raises

  // A reply's leading mark is a literal of its own wherever a proof tells
  // two replies apart by it.
  const NotUnderstood := "S" + "orry, I couldn\U{2019}t understand your request."
  const SpecifyCategory := "\U{274C}" + " Please specify a category."
  const SpecifyTarget := "\U{274C}" + " Please specify a vendor or category."

  /** `query_top_n_expenses`: `int(entities.get("n", 5))`, raising what `int` raises. */
  function TopNPlan(entities: Data): Plan {
    match PyIntOf(LookupOr(entities, "n", Int(5)))
    case Ok(n) => Run(TopNQ(n))
    case Raised(e) => Fail(e)
  }

  /** The handler's plan, once the table has given the handler. */
  function Planned(h: Handler, entities: Data): Plan {
    match h
    case WriteEntry => Write(entities)
    case BurnRate => Run(BurnRateQ)
    case RentPaid => Run(RentPaidQ)
    case UtilitiesPaid => Run(UtilitiesPaidQ)
    case StudentLoanPaid => Run(StudentLoanPaidQ)
    case SpentAtStore =>
      // `total_spent_at_store` lower-cases its argument first.
      var store := Lookup(entities, "store");
      if store.Str? then Run(StoreQ(store.s)) else Fail("AttributeError")
    case HighestCategory => Run(HighestCategoryQ)
    case TotalIncome => Run(TotalIncomeQ)
    case RemainingBudget => Run(RemainingBudgetQ)
    case AverageDailySpend => Run(AverageDailySpendQ)
    case Breakdown => Run(BreakdownQ)
    case TotalForCategory =>
      var category := Lookup(entities, "category");
      if !Truthy(category) then Send(SpecifyCategory)
      else if category.Str? then Run(CategoryQ(category.s))
      else Fail("AttributeError")
    case LastPaymentTo =>
      // sheets_utils.py has no `last_payment_to`: the call raises.
      if !Truthy(Lookup(entities, "vendor_or_category")) then Send(SpecifyTarget) else Fail("AttributeError")
    case LargestSingle => Run(LargestQ)
    case TopN => TopNPlan(entities)
    case SpentThisWeek => Run(WeekQ)
    case Projected => Run(ProjectedQ)
    case WeekendVsWeekday => Run(WeekendQ)
    case NoSpendDays => Run(NoSpendQ)
  }

  /** `handle_intent(intent, entities, message)`. */
  function HandleIntent(intent: string, entities: Data): Plan {
    match HandlerFor(intent)
    case None => Send(NotUnderstood)
    case Some(h) => Planned(h, entities)
  }

  /** No handler sends the "could not understand" reply. */
  lemma HandlersUnderstand(h: Handler, entities: Data)
    ensures Planned(h, entities) != Send(NotUnderstood)
  {
    assert NotUnderstood[0] == 'S' && SpecifyCategory[0] == SpecifyTarget[0] == '\U{274C}';
  }

  /** Exactly the intents outside the table get the "could not understand" reply. */
  lemma UnknownIntent(intent: string, entities: Data)
    ensures HandleIntent(intent, entities) == Send(NotUnderstood) <==> intent !in HandlerKeys
  {
    match HandlerFor(intent)
    case None =>
    case Some(h) => HandlersUnderstand(h, entities);
  }

  /** "fallback", the parser's fallback intent, and "query_smud_paid" are not in the table. */
  lemma FallbackNotUnderstood(entities: Data)
    ensures HandleIntent("fallback", entities) == Send(NotUnderstood)
    ensures HandleIntent("query_smud_paid", entities) == Send(NotUnderstood)
  {
    assert "fallback" !in HandlerKeys;
    assert "query_smud_paid" !in HandlerKeys;
  }

  /** Both logging intents hand the entities to the writer unchanged. */
  lemma LoggingWrites(entities: Data)
    ensures HandleIntent("log_expense", entities) == Write(entities)
    ensures HandleIntent("log_income", entities) == Write(entities)
  {
    assert HandlerKeys[0] == "log_expense" && HandlerKeys[1] == "log_income";
  }

  /** Without an "n" entity the top-N handler asks for the top 5. */
  lemma TopNDefault(entities: Data)
    requires Get(entities, "n").None?
    ensures Planned(TopN, entities) == Run(TopNQ(5))
  {
  }

  /** An "n" entity holding the text of an integer asks for that many. */
  lemma {:induction false} TopNFromText(entities: Data, k: int)
    requires Lookup(entities, "n") == Str(IntToString(k))
    ensures Planned(TopN, entities) == Run(TopNQ(k))
  {
    var v := LookupOr(entities, "n", Int(5));
    assert v == Lookup(entities, "n");
    IntTextReadsBack(k);
    assert TopNPlan(entities) == Run(TopNQ(k));
    TopNPlanned(entities);
  }

  lemma TopNPlanned(entities: Data)
    ensures Planned(TopN, entities) == TopNPlan(entities)
  {
  }

  /** Without a category entity the handler asks for one and does not query. */
  lemma MissingCategory(entities: Data)
    ensures Planned(TotalForCategory, entities) == Send(SpecifyCategory) <==> !Truthy(Lookup(entities, "category"))
    ensures Planned(TotalForCategory, entities).Run? <==> Lookup(entities, "category").Str? && Lookup(entities, "category").s != ""
  {
    assert SpecifyCategory[0] == '\U{274C}';
  }

  /** `query_last_payment_to` never answers: it asks for a target, or raises. */
  lemma LastPaymentNeverAnswers(entities: Data)
    ensures Planned(LastPaymentTo, entities) == Send(SpecifyTarget) || Planned(LastPaymentTo, entities) == Fail("AttributeError")
    ensures Planned(LastPaymentTo, entities) == Fail("AttributeError") <==> Truthy(Lookup(entities, "vendor_or_category"))
  {
  }

  // ------------------------------------------------------------- the replies

  /** Python truthiness of an optional text. */
  predicate Given(t: Option<string>) {
    t.Some? && t.value != ""
  }

  const BurnRatePrefix := "\U{1F525} Burn rate: "
  const NoBurnRate := "\U{274C}" + " Could not determine burn rate."

  /** `query_burn_rate_handler`: the rate, with the description in parentheses when there is one. */
  function BurnRateReply(rate: Option<string>, desc: Option<string>): (r: string)
    ensures Given(rate) ==> r == BurnRatePrefix + rate.value + (if Given(desc) then " (" + desc.value + ")" else "")
  {
    if Given(rate) && Given(desc) then BurnRatePrefix + rate.value + " (" + desc.value + ")"
    else if Given(rate) then BurnRatePrefix + rate.value
    else NoBurnRate
  }

  /** The error reply comes exactly when there is no rate, whatever the description. */
  lemma BurnRateError(rate: Option<string>, desc: Option<string>)
    ensures BurnRateReply(rate, desc) == NoBurnRate <==> !Given(rate)
  {
    if Given(rate) {
      assert BurnRateReply(rate, desc)[0] == BurnRatePrefix[0] != NoBurnRate[0];
    }
  }

  /** The three payment checks, with their two replies each. */
  function PaidReply(paid: bool, amount: real, what: string, notYet: string, fixed2: real -> string): string {
    if paid then "\U{2705} You paid $" + fixed2(amount) + " for " + what + " this month." else notYet
  }

  const RentNotPaid := "\U{274C}" + " You have NOT paid rent yet this month."
  const UtilitiesNotPaid := "\U{274C}" + " You have NOT paid utilities yet this month."
  const StudentLoanNotPaid := "\U{274C}" + " You have NOT made a student loan payment yet this month."

  /** A payment check confirms with the amount exactly when the check found a payment. */
  lemma PaidConfirms(paid: bool, amount: real, what: string, notYet: string, fixed2: real -> string)
    requires notYet in {RentNotPaid, UtilitiesNotPaid, StudentLoanNotPaid}
    ensures PaidReply(paid, amount, what, notYet, fixed2) == notYet <==> !paid
    ensures paid ==> Contains(PaidReply(paid, amount, what, notYet, fixed2), fixed2(amount))
  {
    var confirm := "\U{2705} You paid $" + fixed2(amount) + " for " + what + " this month.";
    if paid {
      assert confirm[0] == '\U{2705}' && notYet[0] == '\U{274C}';
      assert confirm == "\U{2705} You paid $" + fixed2(amount) + (" for " + what + " this month.");
      ContainsMiddle("\U{2705} You paid $", fixed2(amount), " for " + what + " this month.");
    }
  }

  /** `query_total_spent_at_store_handler`. */
  function StoreReply(store: string, amount: real, fixed2: real -> string): string {
    "You\U{2019}ve spent $" + fixed2(amount) + " at " + store + " this month."
  }

  /** `query_highest_expense_category_handler`. */
  function HighestReply(category: string, amount: real, fixed2: real -> string): string {
    "Highest expense category: " + category + " ($" + fixed2(amount) + ")."
  }

  /** `query_total_income_handler`. */
  function IncomeReply(income: real, fixed2: real -> string): string {
    "Total income this month: $" + fixed2(income) + "."
  }

  const WithinBudget := "R" + "emaining spending budget this month: $"
  const OverBudget := "Y" + "ou're currently exceeding this month's spending budget by $"

  /**
   * `query_remaining_budget_handler`. Its third branch, for a value neither
   * at least nor below 0, needs a NaN, which a real number cannot be.
   */
  function RemainingReply(remaining: real, fixed2: real -> string): string {
    if remaining >= 0.0 then WithinBudget + fixed2(remaining) + "."
    else OverBudget + fixed2(-remaining) + "."
  }

  /** The budget reply says "remaining" exactly when the value is not negative, and otherwise the overrun. */
  lemma RemainingBudgetSides(remaining: real, fixed2: real -> string)
    ensures IsPrefix(WithinBudget, RemainingReply(remaining, fixed2)) <==> remaining >= 0.0
    ensures remaining < 0.0 ==> RemainingReply(remaining, fixed2) == OverBudget + fixed2(if remaining < 0.0 then -remaining else remaining) + "."
  {
    var r := RemainingReply(remaining, fixed2);
    if remaining >= 0.0 {
      assert r[..|WithinBudget|] == WithinBudget;
    } else {
      assert r[0] == 'Y' && WithinBudget[0] == 'R';
    }
  }

  /**
   * `query_average_daily_spend_handler`: `average_daily_spend` returns the
   * text of the burn-rate cell or None, and `:.2f` applies to neither.
   */
  function AverageReply(avg: Option<string>): (r: Result<string>)
    ensures r.Raised?
  {
    match avg
    case Some(_) => Raised("ValueError")
    case None => Raised("TypeError")
  }

  const NoBreakdown := "\U{274C}" + " Could not calculate expense breakdown."
  const BreakdownHeading := "\U{1F4CA} Expense breakdown:\n"

  /** One line of the breakdown: the category and its percentage. */
  function ShareLine(share: (string, real), fixed2: real -> string): string {
    share.0 + ": " + fixed2(share.1) + "%"
  }

  /** `query_expense_breakdown_handler`. */
  function BreakdownReply(shares: seq<(string, real)>, fixed2: real -> string): string {
    if shares == [] then NoBreakdown
    else BreakdownHeading + Join(seq(|shares|, i requires 0 <= i < |shares| => ShareLine(shares[i], fixed2)), "\n")
  }

  /** The breakdown is refused exactly when it is empty. */
  lemma EmptyBreakdown(shares: seq<(string, real)>, fixed2: real -> string)
    ensures BreakdownReply(shares, fixed2) == NoBreakdown <==> shares == []
  {
    if shares != [] {
      assert BreakdownReply(shares, fixed2)[0] == BreakdownHeading[0] != NoBreakdown[0];
    }
  }

  /** `query_total_for_category_handler`, once the category total is in. */
  function CategoryReply(category: string, total: real, fixed2: real -> string): string {
    "\U{1F4B0} You spent $" + fixed2(total) + " on " + category + " this month."
  }

  /** `str(row)` for a list of cell texts. */
  function ListRepr(row: seq<string>): string {
    "[" + Join(seq(|row|, i requires 0 <= i < |row| => "'" + row[i] + "'"), ", ") + "]"
  }

  const NoExpenseFound := "\U{274C}" + " Could not find any expenses."

  /** `query_largest_single_expense_handler`: the reply needs a non-empty row. */
  function LargestReply(amount: real, row: Option<seq<string>>, fixed2: real -> string): string {
    if row.Some? && row.value != [] then
      "\U{1F4B8} Largest single expense: $" + fixed2(amount) + " \U{2014} details: " + ListRepr(row.value)
    else NoExpenseFound
  }

  /** The largest-expense reply is refused exactly when no row came back. */
  lemma NoLargestExpense(amount: real, row: Option<seq<string>>, fixed2: real -> string)
    ensures LargestReply(amount, row, fixed2) == NoExpenseFound <==> row.None? || row.value == []
  {
    if row.Some? && row.value != [] {
      assert LargestReply(amount, row, fixed2)[0] == '\U{1F4B8}' != NoExpenseFound[0];
    }
  }

  const NoTopExpenses := "\U{274C}" + " Could not find expenses."

  /** Line `i` of the top-N reply: its rank from 1, the amount and the row. */
  function RankLine(i: nat, e: (real, seq<string>), fixed2: real -> string): string {
    NatToString(i + 1) + ". $" + fixed2(e.0) + " \U{2014} " + ListRepr(e.1)
  }

  /** `query_top_n_expenses_handler`, once the expenses are in. */
  function TopNReply(n: int, top: seq<(real, seq<string>)>, fixed2: real -> string): string {
    if top == [] then NoTopExpenses
    else
      "\U{1F51D} Top " + IntToString(n) + " expenses:\n" +
      Join(seq(|top|, i requires 0 <= i < |top| => RankLine(i, top[i], fixed2)), "\n")
  }

  /** The top-N reply is refused exactly when no expense came back. */
  lemma NoTopN(n: int, top: seq<(real, seq<string>)>, fixed2: real -> string)
    ensures TopNReply(n, top, fixed2) == NoTopExpenses <==> top == []
  {
    if top != [] {
      assert TopNReply(n, top, fixed2)[0] == '\U{1F51D}' != NoTopExpenses[0];
    }
  }

  /** `query_spent_this_week_handler`. */
  function WeekReply(total: real, fixed2: real -> string): string {
    "\U{1F4C6} You\U{2019}ve spent $" + fixed2(total) + " so far this week."
  }

  /** `query_projected_spending_handler`. */
  function ProjectedReply(projected: real, fixed2: real -> string): string {
    "\U{1F4C8} Projected spending for this month: $" + fixed2(projected)
  }

  /** `query_weekend_vs_weekday_handler`. */
  function WeekendReply(weekend: real, weekday: real, fixed2: real -> string): string {
    "\U{1F31E} Weekends: $" + fixed2(weekend) + "\n\U{1F4C5} Weekdays: $" + fixed2(weekday)
  }

  /** `query_no_spend_days_handler`: the count, then the days separated by ", ". */
  function NoSpendReply(count: int, days: seq<int>): string {
    "\U{1F6AB} No-spend days this month: " + IntToString(count) + "\nDays: " +
    Join(seq(|days|, i requires 0 <= i < |days| => IntToString(days[i])), ", ")
  }

  /** What a query returns, by shape. */
  datatype Answer =
    | RateAnswer(rate: Option<string>, desc: Option<string>)
    | PaidAnswer(paid: bool, amount: real)
    | AmountAnswer(amount: real)
    | CategoryAnswer(category: string, total: real)
    | TextAnswer(text: Option<string>)
    | SharesAnswer(shares: seq<(string, real)>)
    | LargestAnswer(largest: real, row: Option<seq<string>>)
    | ExpensesAnswer(expenses: seq<(real, seq<string>)>)
    | SplitAnswer(weekend: real, weekday: real)
    | NoSpendAnswer(count: int, days: seq<int>)

  /** The answer has the shape the query returns. */
  predicate Fits(q: Query, a: Answer) {
    match q
    case BurnRateQ => a.RateAnswer?
    case RentPaidQ => a.PaidAnswer?
    case UtilitiesPaidQ => a.PaidAnswer?
    case StudentLoanPaidQ => a.PaidAnswer?
    case HighestCategoryQ => a.CategoryAnswer?
    case AverageDailySpendQ => a.TextAnswer?
    case BreakdownQ => a.SharesAnswer?
    case LargestQ => a.LargestAnswer?
    case TopNQ(_) => a.ExpensesAnswer?
    case WeekendQ => a.SplitAnswer?
    case NoSpendQ => a.NoSpendAnswer?
    case _ => a.AmountAnswer?
  }

  /** The reply a handler sends once its query has answered, or the exception it raises. */
  function Reply(q: Query, a: Answer, fixed2: real -> string): (r: Result<string>)
    requires Fits(q, a)
    ensures r.Raised? <==> q.AverageDailySpendQ?
  {
    match q
    case BurnRateQ => Ok(BurnRateReply(a.rate, a.desc))
    case RentPaidQ => Ok(PaidReply(a.paid, a.amount, "rent", RentNotPaid, fixed2))
    case UtilitiesPaidQ => Ok(PaidReply(a.paid, a.amount, "utilities", UtilitiesNotPaid, fixed2))
    case StudentLoanPaidQ => Ok(PaidReply(a.paid, a.amount, "student loans", StudentLoanNotPaid, fixed2))
    case StoreQ(store) => Ok(StoreReply(store, a.amount, fixed2))
    case HighestCategoryQ => Ok(HighestReply(a.category, a.total, fixed2))
    case TotalIncomeQ => Ok(IncomeReply(a.amount, fixed2))
    case RemainingBudgetQ => Ok(RemainingReply(a.amount, fixed2))
    case AverageDailySpendQ => AverageReply(a.text)
    case BreakdownQ => Ok(BreakdownReply(a.shares, fixed2))
    case CategoryQ(category) => Ok(CategoryReply(category, a.amount, fixed2))
    case LargestQ => Ok(LargestReply(a.largest, a.row, fixed2))
    case TopNQ(n) => Ok(TopNReply(n, a.expenses, fixed2))
    case WeekQ => Ok(WeekReply(a.amount, fixed2))
    case ProjectedQ => Ok(ProjectedReply(a.amount, fixed2))
    case WeekendQ => Ok(WeekendReply(a.weekend, a.weekday, fixed2))
    case NoSpendQ => Ok(NoSpendReply(a.count, a.days))
  }
}
