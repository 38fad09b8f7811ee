/**
 * The intent catalogue of intent_explorer.py: display names, descriptions
 * with example phrasings, the grouped and numbered listing, and the
 * description of an intent picked by number. The texts are kept character
 * for character as the file holds them; its emoji were saved mis-decoded,
 * so they appear here as the characters the file actually contains.
 */
module IntentExplorer {
  import opened Wrappers
  import opened PyText
  import opened Schema
  import opened IntentText

  /** `FRIENDLY_NAMES`: the display name of each intent. */
  const FriendlyNames: Table<string> := [
    ("log_expense", "Log Expense"),
    ("log_income", "Log Income"),
    ("log_rent_paid", "Log Rent Paid"),
    ("log_smud_paid", "Log SMUD Paid"),
    ("log_student_loan_paid", "Log Student Loan Paid"),
    ("log_1st_savings", "Log 1st Savings Deposit"),
    ("log_2nd_savings", "Log 2nd Savings Deposit"),
    ("log_need_expense", "Log NEED Expense"),
    ("query_burn_rate", "Burn Rate"),
    ("query_rent_paid", "Check Rent Paid"),
    ("query_smud_paid", "Check SMUD Paid"),
    ("query_student_loans_paid", "Check Student Loans Paid"),
    ("query_total_for_store", "Total Spent at Specific Store"),
    ("query_highest_expense_category", "Highest Expense Category"),
    ("query_total_income", "Current Total Monthly Income"),
    ("query_remaining_budget", "Remaining Budget"),
    ("query_average_daily_spend", "Average Daily Spending Amount"),
    ("query_expense_breakdown_percentages", "Overall Expense Breakdown"),
    ("query_total_for_category", "Total for Category"),
    ("query_largest_single_expense", "Largest Single Expense"),
    ("query_top_n_expenses", "Largest N Expenses"),
    ("query_spent_this_week", "Spent This Week"),
    ("query_projected_spending", "Projected Monthly Spending"),
    ("query_weekend_vs_weekday", "Weekend vs Weekday"),
    ("query_no_spend_days", "No Spend Days"),
    ("query_total_for_item", "Total Spent on Specific Item"),
    ("query_subscriptions", "Subscriptions"),
    ("query_daily_spending_calendar", "Daily Spending Calendar"),
    ("query_best_worst_day_of_week", "Best/Worst Day of Week"),
    ("query_longest_no_spend_streak", "Longest No-Spend Streak"),
    ("query_days_budget_lasts", "Days Budget Will Last"),
    ("query_most_frequent_purchases", "Most Frequent N Purchases"),
    ("query_expenses_on_day", "Expenses on Specific Day"),
    ("query_1st_savings", "Check 1st Savings Deposit"),
    ("query_2nd_savings", "Check 2nd Savings Deposit")
  ]

  /** The keys of `INTENT_DETAILS`, in order. */
  const DetailKeys: seq<string> := [
    "log_expense", "log_income", "log_rent_paid",
    "log_smud_paid", "log_student_loan_paid", "log_1st_savings",
    "log_2nd_savings", "log_need_expense", "query_burn_rate",
    "query_rent_paid", "query_smud_paid", "query_student_loans_paid",
    "query_total_for_store", "query_highest_expense_category", "query_total_income",
    "query_remaining_budget", "query_average_daily_spend", "query_expense_breakdown_percentages",
    "query_total_for_category", "query_largest_single_expense", "query_top_n_expenses",
    "query_spent_this_week", "query_projected_spending", "query_weekend_vs_weekday",
    "query_no_spend_days", "query_total_for_item", "query_subscriptions",
    "query_daily_spending_calendar", "query_best_worst_day_of_week", "query_longest_no_spend_streak",
    "query_days_budget_lasts", "query_most_frequent_purchases", "query_expenses_on_day",
    "query_1st_savings", "query_2nd_savings"
  ]

  /** The value of `INTENT_DETAILS` under its `k`-th key: a description and example phrasings. */
  function DetailsAt(k: nat): (string, seq<string>) {
    match k
    case 0 => ("Log a general expense to track your spending.",
              ["log expense $25 at grocery store", "spent 40 at restaurant"])
    case 1 => ("Log income you received.",
              ["received paycheck $1500", "logged income $200 from freelance"])
    case 2 => ("Log that you paid your rent.",
              ["paid rent $1200", "logged rent $1300"])
    case 3 => ("Log your SMUD (electricity) bill payment.",
              ["paid SMUD $90", "logged electricity bill $100"])
    case 4 => ("Log your student loan payment.",
              ["paid student loan $200", "logged student loan $150"])
    case 5 => ("Log a contribution to your first savings account.",
              ["moved $100 to savings 1", "saved 50 in first savings"])
    case 6 => ("Log a contribution to your second savings account.",
              ["moved $200 to savings 2", "saved 75 in second savings"])
    case 7 => ("Log a necessary or non-discretionary expense.",
              ["logged $80 for medication (need)", "spent 60 on gas (need)"])
    case 8 => ("Check your current burn rate (how fast you\U{E2}\U{20AC}\U{2122}re spending money).",
              ["what is my burn rate?", "show current spending rate"])
    case 9 => ("Check if/when your rent was paid.",
              ["when did I last pay rent?", "have I paid rent this month?"])
    case 10 => ("Check if/when your SMUD bill was paid.",
              ["when did I last pay SMUD?", "show SMUD payments"])
    case 11 => ("Check if/when you paid your student loans.",
              ["when did I pay student loans?", "show student loan payments"])
    case 12 => ("Get the total amount spent at a specific store.",
              ["how much did I spend at Target?", "total spent at Amazon"])
    case 13 => ("Find out which expense category has the highest total.",
              ["what\U{E2}\U{20AC}\U{2122}s my highest expense category?", "biggest spending category"])
    case 14 => ("Get the total income over a period of time.",
              ["what\U{E2}\U{20AC}\U{2122}s my total income this month?", "how much money came in?"])
    case 15 => ("Check how much budget you have left.",
              ["how much budget remains?", "remaining budget for the month"])
    case 16 => ("Get your average daily spending.",
              ["what\U{E2}\U{20AC}\U{2122}s my average daily spend?", "daily spending average"])
    case 17 => ("Get a percentage breakdown of expenses by category.",
              ["show expenses by percentage", "expense category breakdown"])
    case 18 => ("Get the total amount spent in a specific category.",
              ["total for groceries?", "how much did I spend on dining?"])
    case 19 => ("Find your largest single expense.",
              ["what\U{E2}\U{20AC}\U{2122}s my biggest single expense?", "largest expense"])
    case 20 => ("Get your top N largest expenses.",
              ["show top 3 expenses", "what are my 5 biggest expenses?"])
    case 21 => ("See how much you\U{E2}\U{20AC}\U{2122}ve spent this week.",
              ["how much did I spend this week?", "weekly spending"])
    case 22 => ("Get projected spending based on current trends.",
              ["what is my projected spending?", "forecast my expenses"])
    case 23 => ("Compare weekend and weekday spending.",
              ["weekend vs weekday spending", "do I spend more on weekends?"])
    case 24 => ("Find out how many days you spent nothing.",
              ["how many no-spend days?", "days with no spending"])
    case 25 => ("Check total spent on a specific item.",
              ["total spent on coffee?", "how much have I spent on shoes?"])
    case 26 => ("List recurring subscriptions and their costs.",
              ["what are my subscriptions?", "list all recurring expenses"])
    case 27 => ("View spending on a daily calendar.",
              ["show daily spending calendar", "daily expenses calendar"])
    case 28 => ("Find your best (least spending) and worst (most spending) day of the week.",
              ["best and worst spending day", "which day do I spend most?"])
    case 29 => ("Find your longest streak of no-spend days.",
              ["longest no-spend streak?", "longest period with no expenses"])
    case 30 => ("Estimate how many days your remaining budget will last.",
              ["how long will my budget last?", "days left in budget"])
    case 31 => ("List your most frequent purchases.",
              ["what do I buy most often?", "most common expenses"])
    case 32 => ("Show expenses on a specific day.",
              ["expenses on March 5th", "what did I spend on July 1?"])
    case 33 => ("Check the balance or activity in your first savings account.",
              ["how much in first savings?", "show savings 1 activity"])
    case 34 => ("Check the balance or activity in your second savings account.",
              ["how much in second savings?", "show savings 2 activity"])
    case _ => ("", [])
  }

  // The intents of each group of `INTENT_GROUPS`.
  const LoggingActions: seq<string> := ["log_expense", "log_need_expense", "log_income", "log_rent_paid", "log_smud_paid", "log_student_loan_paid", "log_1st_savings", "log_2nd_savings"]
  const CheckingPayments: seq<string> := ["query_rent_paid", "query_smud_paid", "query_student_loans_paid", "query_1st_savings", "query_2nd_savings", "query_subscriptions"]
  const SpendingOverview: seq<string> := ["query_burn_rate", "query_remaining_budget", "query_projected_spending", "query_total_income", "query_average_daily_spend", "query_expense_breakdown_percentages"]
  const CategoryTotals: seq<string> := ["query_total_for_store", "query_total_for_category", "query_total_for_item"]
  const LargestExpenses: seq<string> := ["query_largest_single_expense", "query_top_n_expenses", "query_most_frequent_purchases", "query_highest_expense_category"]
  const TimeAnalysis: seq<string> := ["query_spent_this_week", "query_no_spend_days", "query_longest_no_spend_streak", "query_days_budget_lasts", "query_expenses_on_day", "query_daily_spending_calendar", "query_weekend_vs_weekday", "query_best_worst_day_of_week"]

  /** `INTENT_GROUPS`: the named groups of the listing, in order. */
  const IntentGroups: seq<(string, seq<string>)> := [
    ("Logging Actions", LoggingActions),
    ("Checking Payments", CheckingPayments),
    ("Spending & Budget Overview", SpendingOverview),
    ("Category & Item Totals", CategoryTotals),
    ("Largest/Most Frequent Expenses", LargestExpenses),
    ("Time-Based Analysis", TimeAnalysis)
  ]

  /** `INTENTS` of intent_parser.py, the list `describe_intent` numbers from. */
  const Intents: seq<string> := [
    "log_expense", "log_income", "query_burn_rate", "query_rent_paid", "query_total_spent_at_store",
    "query_highest_expense_category", "query_total_income", "query_remaining_budget",
    "query_savings_progress", "query_average_daily_spend", "query_monthly_goal_status"
  ]

  /** `get_friendly_name(intent)`: the display name, or the intent itself when the table has none. */
  function FriendlyName(intent: string): (r: string)
    ensures r == intent || exists i :: 0 <= i < |FriendlyNames| && FriendlyNames[i] == (intent, r)
    ensures (forall i :: 0 <= i < |FriendlyNames| ==> FriendlyNames[i].0 != intent) ==> r == intent
    ensures (exists i :: 0 <= i < |FriendlyNames| && FriendlyNames[i].0 == intent) ==> (intent, r) in FriendlyNames
  {
    match Get(FriendlyNames, intent)
    case Some(name) => name
    case None => intent
  }

  // ------------------------------------------------------------ consistency

  /** No intent occurs twice. */
  predicate Distinct(names: seq<string>) {
    forall i, j :: 0 <= i < j < |names| ==> names[i] != names[j]
  }

  /** No intent occurs in both. */
  predicate Apart(a: seq<string>, b: seq<string>) {
    forall i, j :: 0 <= i < |a| && 0 <= j < |b| ==> a[i] != b[j]
  }

  /** `names[i]` is key `at[i]` of both tables, for every `i`. */
  predicate Keyed(names: seq<string>, at: seq<nat>) {
    |at| == |names| &&
    forall i :: 0 <= i < |names| ==>
      at[i] < |FriendlyNames| && at[i] < |DetailKeys| && FriendlyNames[at[i]].0 == names[i] && DetailKeys[at[i]] == names[i]
  }

  /** Every intent in `names` has a display name and details. */
  predicate Catalogued(names: seq<string>) {
    forall i :: 0 <= i < |names| ==> Get(FriendlyNames, names[i]).Some? && Position(DetailKeys, names[i]).Some?
  }

  lemma KeyedCatalogued(names: seq<string>, at: seq<nat>)
    requires Keyed(names, at)
    ensures Catalogued(names)
  {
    forall i | 0 <= i < |names|
      ensures Get(FriendlyNames, names[i]).Some? && Position(DetailKeys, names[i]).Some?
    {
      assert FriendlyNames[at[i]].0 == names[i];
      assert DetailKeys[at[i]] == names[i];
    }
  }

  lemma KeyedJoin(a: seq<string>, p: seq<nat>, b: seq<string>, q: seq<nat>)
    requires Keyed(a, p) && Keyed(b, q)
    ensures Keyed(a + b, p + q)
  {
    forall i | 0 <= i < |a + b|
      ensures (p + q)[i] < |FriendlyNames| && (p + q)[i] < |DetailKeys| &&
              FriendlyNames[(p + q)[i]].0 == (a + b)[i] && DetailKeys[(p + q)[i]] == (a + b)[i]
    {
      if i < |a| {
        assert (p + q)[i] == p[i] && (a + b)[i] == a[i];
      } else {
        assert (p + q)[i] == q[i - |a|] && (a + b)[i] == b[i - |a|];
      }
    }
  }

  // Where the intents of each group sit in both tables, which share their key order.
  const LoggingActionsAt: seq<nat> := [0, 7, 1, 2, 3, 4, 5, 6]
  const CheckingPaymentsAt: seq<nat> := [9, 10, 11, 33, 34, 26]
  const SpendingOverviewAt: seq<nat> := [8, 15, 22, 14, 16, 17]
  const CategoryTotalsAt: seq<nat> := [12, 18, 25]
  const LargestExpensesAt: seq<nat> := [19, 20, 31, 13]
  const TimeAnalysisAt: seq<nat> := [21, 24, 29, 30, 32, 27, 23, 28]

  lemma LoggingActionsKeyed()
    ensures Keyed(LoggingActions, LoggingActionsAt)
  {
  }

  lemma CheckingPaymentsKeyed()
    ensures Keyed(CheckingPayments, CheckingPaymentsAt)
  {
  }

  lemma SpendingOverviewKeyed()
    ensures Keyed(SpendingOverview, SpendingOverviewAt)
  {
  }

  lemma CategoryTotalsKeyed()
    ensures Keyed(CategoryTotals, CategoryTotalsAt)
  {
  }

  lemma LargestExpensesKeyed()
    ensures Keyed(LargestExpenses, LargestExpensesAt)
  {
  }

  lemma TimeAnalysisKeyed()
    ensures Keyed(TimeAnalysis, TimeAnalysisAt)
  {
  }

  lemma ListingOrder()
    ensures Count(IntentGroups) == 35
    ensures Flatten(IntentGroups) ==
      LoggingActions + CheckingPayments + SpendingOverview + CategoryTotals + LargestExpenses + TimeAnalysis
  {
    var gs := IntentGroups;
    assert gs[..1][..0] == [];
    assert gs[..2][..1] == gs[..1];
    assert gs[..3][..2] == gs[..2];
    assert gs[..4][..3] == gs[..3];
    assert gs[..5][..4] == gs[..4];
    assert gs[..6][..5] == gs[..5];
    assert gs[..6] == gs;
    assert Flatten(gs[..1]) == LoggingActions;
    assert Flatten(gs[..2]) == LoggingActions + CheckingPayments;
    assert Flatten(gs[..3]) == LoggingActions + CheckingPayments + SpendingOverview;
    assert Flatten(gs[..4]) == LoggingActions + CheckingPayments + SpendingOverview + CategoryTotals;
    assert Flatten(gs[..5]) == LoggingActions + CheckingPayments + SpendingOverview + CategoryTotals + LargestExpenses;
  }

  lemma FirstGroupsDistinct()
    ensures Distinct(LoggingActions) && Distinct(CheckingPayments) && Distinct(SpendingOverview)
  {
  }

  lemma FirstGroupsApart()
    ensures Apart(LoggingActions, CheckingPayments + (SpendingOverview + (CategoryTotals + (LargestExpenses + TimeAnalysis))))
  {
  }

  lemma MiddleGroupsApart()
    ensures Apart(CheckingPayments, SpendingOverview + (CategoryTotals + (LargestExpenses + TimeAnalysis)))
    ensures Apart(SpendingOverview, CategoryTotals + (LargestExpenses + TimeAnalysis))
  {
  }

  lemma LastGroupsDistinct()
    ensures Distinct(CategoryTotals) && Distinct(LargestExpenses) && Distinct(TimeAnalysis)
  {
  }

  lemma LastGroupsApart()
    ensures Apart(CategoryTotals, LargestExpenses + TimeAnalysis) && Apart(LargestExpenses, TimeAnalysis)
  {
  }

  /** The six groups joined one after another, grouped from the right. */
  lemma Regroup(a: seq<string>, b: seq<string>, c: seq<string>, d: seq<string>, e: seq<string>, f: seq<string>)
    ensures a + b + c + d + e + f == a + (b + (c + (d + (e + f))))
  {
  }

  /** Joining two lists without repeats that share nothing gives a list without repeats. */
  lemma DistinctJoin(a: seq<string>, b: seq<string>)
    requires Distinct(a) && Distinct(b) && Apart(a, b)
    ensures Distinct(a + b)
  {
    forall i, j | 0 <= i < j < |a + b|
      ensures (a + b)[i] != (a + b)[j]
    {
      if j < |a| {
        assert (a + b)[i] == a[i] && (a + b)[j] == a[j];
      } else if i >= |a| {
        assert (a + b)[i] == b[i - |a|] && (a + b)[j] == b[j - |a|];
      } else {
        assert (a + b)[i] == a[i] && (a + b)[j] == b[j - |a|];
      }
    }
  }

  lemma ListedOnce()
    ensures Distinct(Flatten(IntentGroups))
  {
    ListingOrder();
    FirstGroupsDistinct();
    LastGroupsDistinct();
    FirstGroupsApart();
    MiddleGroupsApart();
    LastGroupsApart();
    var e := LargestExpenses + TimeAnalysis;
    var d := CategoryTotals + e;
    var c := SpendingOverview + d;
    var b := CheckingPayments + c;
    DistinctJoin(LargestExpenses, TimeAnalysis);
    DistinctJoin(CategoryTotals, e);
    DistinctJoin(SpendingOverview, d);
    DistinctJoin(CheckingPayments, c);
    DistinctJoin(LoggingActions, b);
    Regroup(LoggingActions, CheckingPayments, SpendingOverview, CategoryTotals, LargestExpenses, TimeAnalysis);
  }

  lemma LastTwoKeyed()
    ensures Keyed(LargestExpenses + TimeAnalysis, LargestExpensesAt + TimeAnalysisAt)
  {
    LargestExpensesKeyed();
    TimeAnalysisKeyed();
    KeyedJoin(LargestExpenses, LargestExpensesAt, TimeAnalysis, TimeAnalysisAt);
  }

  lemma LastThreeKeyed()
    ensures Keyed(CategoryTotals + (LargestExpenses + TimeAnalysis), CategoryTotalsAt + (LargestExpensesAt + TimeAnalysisAt))
  {
    CategoryTotalsKeyed();
    LastTwoKeyed();
    KeyedJoin(CategoryTotals, CategoryTotalsAt, LargestExpenses + TimeAnalysis, LargestExpensesAt + TimeAnalysisAt);
  }

  lemma LastFourKeyed()
    ensures Keyed(SpendingOverview + (CategoryTotals + (LargestExpenses + TimeAnalysis)),
                  SpendingOverviewAt + (CategoryTotalsAt + (LargestExpensesAt + TimeAnalysisAt)))
  {
    SpendingOverviewKeyed();
    LastThreeKeyed();
    KeyedJoin(SpendingOverview, SpendingOverviewAt, CategoryTotals + (LargestExpenses + TimeAnalysis),
              CategoryTotalsAt + (LargestExpensesAt + TimeAnalysisAt));
  }

  lemma LastFiveKeyed()
    ensures Keyed(CheckingPayments + (SpendingOverview + (CategoryTotals + (LargestExpenses + TimeAnalysis))),
                  CheckingPaymentsAt + (SpendingOverviewAt + (CategoryTotalsAt + (LargestExpensesAt + TimeAnalysisAt))))
  {
    CheckingPaymentsKeyed();
    LastFourKeyed();
    KeyedJoin(CheckingPayments, CheckingPaymentsAt, SpendingOverview + (CategoryTotals + (LargestExpenses + TimeAnalysis)),
              SpendingOverviewAt + (CategoryTotalsAt + (LargestExpensesAt + TimeAnalysisAt)));
  }

  lemma AllKeyed()
    ensures Keyed(LoggingActions + (CheckingPayments + (SpendingOverview + (CategoryTotals + (LargestExpenses + TimeAnalysis)))),
                  LoggingActionsAt + (CheckingPaymentsAt + (SpendingOverviewAt + (CategoryTotalsAt + (LargestExpensesAt + TimeAnalysisAt)))))
  {
    LoggingActionsKeyed();
    LastFiveKeyed();
    KeyedJoin(LoggingActions, LoggingActionsAt,
              CheckingPayments + (SpendingOverview + (CategoryTotals + (LargestExpenses + TimeAnalysis))),
              CheckingPaymentsAt + (SpendingOverviewAt + (CategoryTotalsAt + (LargestExpensesAt + TimeAnalysisAt))));
  }

  /**
   * The listing has 35 entries; every listed intent is listed in exactly
   * one group and has both a display name and details.
   */
  lemma CatalogueConsistent()
    ensures |Flatten(IntentGroups)| == 35 && Distinct(Flatten(IntentGroups))
    ensures Catalogued(Flatten(IntentGroups))
  {
    ListingOrder();
    ListedOnce();
    AllKeyed();
    KeyedCatalogued(LoggingActions + (CheckingPayments + (SpendingOverview + (CategoryTotals + (LargestExpenses + TimeAnalysis)))),
                    LoggingActionsAt + (CheckingPaymentsAt + (SpendingOverviewAt + (CategoryTotalsAt + (LargestExpensesAt + TimeAnalysisAt)))));
    Regroup(LoggingActions, CheckingPayments, SpendingOverview, CategoryTotals, LargestExpenses, TimeAnalysis);
  }

  // ---------------------------------------------------------------- listing

  /** The text `list_intents()` returns. */
  function Listing(): string {
    ListingOf(IntentGroups, FriendlyName)
  }

  /** `list_intents()`. */
  method ListIntents() returns (output: string)
    ensures output == Listing()
  {
    output := RenderListing(IntentGroups, FriendlyName);
  }

  /**
   * Entry `k` of the listing shows the display name of the `k`-th listed
   * intent; there are `Count(IntentGroups)` = 35 entries (ListingOrder).
   */
  lemma ListingNumbers(k: nat)
    requires 1 <= k <= Count(IntentGroups)
    ensures Contains(Listing(), EntryLine(k, FriendlyName(Flatten(IntentGroups)[k - 1])))
  {
    ListingShows(IntentGroups, FriendlyName, k);
  }

  // --------------------------------------------------------------- describe

  const NoDescription := "No description yet."

  /** `INTENT_DETAILS.get(intent, ("No description yet.", []))`. */
  function Details(intent: string): (r: (string, seq<string>))
    ensures intent !in DetailKeys ==> r == (NoDescription, [])
    ensures intent in DetailKeys ==> exists k :: 0 <= k < |DetailKeys| && DetailKeys[k] == intent && r == DetailsAt(k)
  {
    match Position(DetailKeys, intent)
    case Some(k) => DetailsAt(k)
    case None => (NoDescription, [])
  }

  /** What `describe_intent(number)` returns: the card of the `number`-th entry of `INTENTS`. */
  function Description(number: int): string {
    DescriptionOf(number, Intents, FriendlyName, Details)
  }

  /** `describe_intent(number)`. */
  method DescribeIntent(number: int) returns (output: string)
    ensures output == Description(number)
  {
    output := RenderDescription(number, Intents, FriendlyName, Details);
  }

  /** Exactly the numbers 1 to 11, the positions of `INTENTS`, are described; any other is refused. */
  lemma DescribeBounds(number: int)
    ensures Description(number) == InvalidNumber <==> number < 1 || number > 11
  {
    DescriptionBounds(number, Intents, FriendlyName, Details);
  }

  /**
   * The numbers the listing shows and the numbers `describe_intent` reads
   * index different lists: entry 2 of the listing shows the intent listed
   * second, "log_need_expense" (ListingNumbers), but `Description(2)`
   * describes `Intents[1]`, which is "log_income".
   */
  lemma ListingAndDescribeDisagree()
    ensures Count(IntentGroups) == 35 && |Intents| == 11
    ensures Flatten(IntentGroups)[1] == "log_need_expense" && Intents[1] == "log_income"
  {
    ListingOrder();
    assert Flatten(IntentGroups)[1] == LoggingActions[1];
    SecondNumbered();
  }

  lemma SecondNumbered()
    ensures Intents[1] == "log_income"
  {
  }

  /** Both tables list the same keys in the same order. */
  lemma SameKeys()
    ensures |FriendlyNames| == |DetailKeys|
    ensures forall i :: 0 <= i < |DetailKeys| ==> FriendlyNames[i].0 == DetailKeys[i]
  {
  }

  /** `Get` finds the entry at `i` when no earlier entry has the key. */
  lemma {:induction false} GetAt<V>(d: Table<V>, i: nat, key: string)
    requires i < |d| && d[i].0 == key
    requires forall j :: 0 <= j < i ==> d[j].0 != key
    ensures Get(d, key) == Some(d[i].1)
    decreases i
  {
    if i > 0 {
      assert d[0].0 != key;
      assert d[1..][i - 1] == d[i];
      assert forall j :: 0 <= j < i - 1 ==> d[1..][j] == d[j + 1];
      GetAt(d[1..], i - 1, key);
    }
  }

  /** "query_total_spent_at_store", the fifth entry of `INTENTS`, has no details. */
  lemma FifthIntentUndetailed()
    ensures Intents[4] == "query_total_spent_at_store" && Intents[4] !in DetailKeys
  {
  }

  /** "query_total_spent_at_store" has no display name either. */
  lemma FifthIntentUnnamed()
    ensures Get(FriendlyNames, "query_total_spent_at_store").None?
  {
    SameKeys();
    FifthIntentUndetailed();
  }

  /**
   * Number 5 is described under the raw intent name, with the placeholder
   * description and the note that there are no examples.
   */
  lemma MissingDetails()
    ensures Description(5) == Card("query_total_spent_at_store", NoDescription, [])
  {
    FifthIntentUndetailed();
    FifthIntentUnnamed();
  }
}
