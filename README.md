# BookieBot ledger core in Dafny

BookieBot is a Discord bot that keeps a household budget in a Google Sheet.
This project models the core of the bot and proves properties of it:

- **The expense ledger.** The worksheet is modelled as a grid of cell texts. Blocks of columns hold grocery, gas, food and shopping entries, each starting at row 3.
- **Analytics.** These are the queries the bot answers from the ledger:
  - `clean_money`, the column sums and category totals;
  - the store total, the breakdown, and the largest and top-N expenses;
  - the week, month and weekday/weekend windows, and the no-spend days;
  - the income-sheet lookups: payments, income, margin and burn rate.
- **Writers.** These log an expense or an income entry into the sheet. There are three revisions of them. They include the per-user pending map that holds an ambiguous request until the user picks a card.
- **The in-memory worksheet.** This is the test double of the sheet that the writers change in place.
- **Intents.**
  - the intent catalogue and its help texts;
  - the routing from an intent to its reply;
  - the decoding of the language model's answer into a request, falling back to a default request.
- **Small helpers.**
  - A1 column labels;
  - the fixture loader that builds test sheets;
  - the process-local log ring and its filtered tail.

## How the model is organised

- `wrappers.dfy` (`Option`, `Result`) and `pytext.dfy` give the Python text operations the code relies on. These are `strip`, `lower`, `upper`, `in`, `split`, `replace`, `str(int)` and `int()`.
- `money.dfy` models money.
  - Amounts are `real`.
  - `float()` reads decimal numerals.
  - `str(x)` renders a float as its exact decimal expansion.
- `calendar.dfy` models the proleptic Gregorian calendar of Python's `datetime`:
  - ordinals, weekdays and `timedelta` steps;
  - `strptime("%m/%d/%Y")` and the two `strftime` forms the code writes.
- `a1.dfy` holds the A1 labels and `column_index_from_string`.
- `schema.dfy` holds the category table. `entities.dfy` holds the request entities: a dictionary of Python scalars with truthiness, `or`, `int()` and subscripting.
- `sheet.dfy` holds `InMemoryWorksheet`. It is a class whose `rows` field the methods reassign; each method is proved against a function on the grid. It also holds the repository registry with `patched()`.
- The analytics are split by query family:
  - `ledger.dfy`: column totals, categories, breakdown and store;
  - `ranking.dfy`: largest and top-N;
  - `periods.dfy`: the week, month and weekday windows, and no-spend days;
  - `income.dfy`: the income-sheet lookups.

  Each loop of the source is a method proved equal to a specification function. The properties are lemmas about those functions.
- The writers:
  - `writer.dfy` holds what the three revisions share: the normalisation, `log_category_row`, the income insert, the pending map and `handle_selection`.
  - `current_writer.dfy`, `earlier_writer.dfy` and `earliest_writer.dfy` hold the expense flow of `src/bookiebot/sheets/writer.py`, `src/bookiebot/sheets_writer.py` and `sheets_writer.py`.

  Each revision computes an `Outcome`: an answer, a crash, a deferral, or an append with its reply. `Writer.Perform` carries the outcome out on the sheet and the pending map.
- The intents:
  - `intent_text.dfy` renders listings and descriptions over any catalogue;
  - `intent_explorer.dfy` instantiates it with the bot's tables;
  - `intent_handlers.dfy` holds the dispatch table and the replies;
  - `llm_parser.dfy` holds the decode-or-fallback of the parser and its cached default client.
- `log_buffer.dfy` holds the log ring. `fixture_loader.dfy` holds the fixture normalisation.

The following are parameters of the model:
- **The clock.** `today`, `now`, and the entry stamp.
- **The person resolver.** `resolve_query_persons` is a function parameter.
- **`json.loads`.** A partial function `string -> Option<Json>`.
- **Rounding and `:.2f`.** `round(x, 2)` and the `:.2f` rendering are function parameters.
- **The language model's answer.** A `Completion` value.

## Model

| member | source | states |
|---|---|---|
| A1.RowColToA1 | unit_tests/conftest.py:22-27 | the reference is the column's letter label followed by the decimal row number |
| A1.LabelAlphabet | unit_tests/conftest.py:24-26 | a label is made of capital letters and is empty exactly when the column is not positive |
| A1.LabelRoundTrip | unit_tests/conftest.py:24-26 | reading a label back as bijective base 26 gives the column it was made from |
| A1.ValueRoundTrip | unit_tests/conftest.py:24-26 | every string of capital letters is the label of its value, so labels are onto |
| A1.LabelInjective | unit_tests/conftest.py:24-26 | distinct positive columns get distinct labels |
| A1.LabelExamples | unit_tests/conftest.py:24-26 | columns 1, 26 and 27 are labelled "A", "Z" and "AA" |
| A1.ColumnIndexMeaning | unit_tests/support/fixture_loader.py:37 | `column_index_from_string` succeeds exactly for 1 to 3 letters, in either case, and then returns the column whose label is those letters upper-cased |
| A1.ColumnIndexOfLabel | unit_tests/support/fixture_loader.py:37 | the letter→index conversion inverts `rowcol_to_a1`'s labels for every column from "A" to "ZZZ" |
| A1.SingleLetterIndex | sheets_utils.py:93-96 | one capital letter names its place in the alphabet, with A = 1 |
| Money.CleanMoney | sheets_utils.py:12-21 | the result is `float` of the text with "$" and "," removed and surrounding whitespace stripped, or 0.0 when that text does not parse; it never raises |
| Money.MoneyTextIgnoresMarks | sheets_utils.py:18 | a "$" or "," anywhere in the text does not change the text handed to `float` |
| Money.CleanMoneyIgnoresMarks | sheets_utils.py:18 | a "$" or "," anywhere in the text does not change the cleaned amount |
| Money.CleanMoneyIgnoresLeadingSpace | sheets_utils.py:18 | leading whitespace does not change the cleaned amount |
| Money.GroupedDollars | sheets_utils.py:12-18 | "$a,b.f" with digit groups cleans to the number its digits spell, so "$1,250.00" gives 1250.0 |
| Money.CleanDecimal | sheets_utils.py:18 | digits, a point and digits clean to their decimal value |
| Money.SpacedWholeDollars | sheets_utils.py:12-18 | a whole dollar amount with a thousands comma and whitespace around it cleans to its digits, so "  $5,000 " gives 5000.0 |
| Money.CleanSpacedWhole | sheets_utils.py:18 | digits between runs of whitespace are what `float` reads, and clean to their value |
| Money.CleanMoneyNoDigits | sheets_utils.py:17-21 | text holding no digit, such as "N/A" or "", cleans to 0.0 |
| Money.PyFloatOfRepr | sheets_utils.py:18 | `float(str(x)) == x` for every amount with at most 17 decimal places |
| Money.CleanMoneyOfRepr | sheets_utils.py:12-21 | an amount written with `str` reads back through `clean_money` as the same amount |
| Money.CleanMoneyIdempotent | sheets_utils.py:12-21 | writing a cleaned amount back and cleaning it again gives the same amount |
| Calendar.MonthLength | sheets_utils.py:303 | a month has 28 to 31 days, and 29 exactly for February of a leap year |
| Calendar.Weekday | sheets_utils.py:320 | `weekday()` lies in 0..6 |
| Calendar.WeekdayNext | sheets_utils.py:320 | the next day has the next weekday, Sunday wrapping to Monday |
| Calendar.WeekdayExamples | sheets_utils.py:320 | 2024-01-01 is a Monday (0) and 2024-01-06 a Saturday (5) |
| Calendar.AddDaysOrdinal | sheets_utils.py:261 | adding a `timedelta` of k days moves the ordinal by exactly k, and fails exactly when the target leaves 0001-01-01..9999-12-31 |
| Calendar.MondayExists | sheets_utils.py:261 | `today - timedelta(days=today.weekday())` never overflows and is a Monday |
| Calendar.ParseMdY | sheets_utils.py:266 | `strptime(s, "%m/%d/%Y")` yields only real calendar dates; every other text is the ValueError the callers skip |
| Calendar.ParseFormatted | unit_tests/support/fixture_loader.py:12-20 | a date written "%m/%d/%Y" reads back as the same date |
| Calendar.ParseShort | src/bookiebot/sheets/writer.py:190 | the writer's "%-m/%-d/%Y" stamp reads back through the ledger's "%m/%d/%Y" parser as the same date |
| Calendar.DaysInMonthCorrect | sheets_utils.py:303 | the month-length expression of the source gives the true length, except in December of year 1 where it overflows |
| Schema.Get | src/bookiebot/sheets/writer.py:81 | a key is found exactly when some entry has it, and then its value is that entry's |
| Schema.ConfigCategories | src/bookiebot/sheets/config.py:3-41 | the table has exactly grocery, gas, food and shopping, in that order, each starting at row 3 |
| Schema.ConfigLetters | src/bookiebot/sheets/config.py:3-41 | every column letter of the table is one capital letter |
| Schema.ConfigEntryLetters | src/bookiebot/sheets/config.py:3-41 | the block `get_category_columns` returns for any configured category has one-letter columns |
| Schema.RequiredFields | src/bookiebot/sheets/config.py:3-41 | every category maps date, amount and person to a column |
| Schema.OptionalFields | src/bookiebot/sheets/config.py:4-19 | gas maps neither item nor location; grocery maps location but not item |
| Schema.ColumnsDistinct | src/bookiebot/sheets/config.py:3-41 | no column letter is used twice in the whole table, so fields differ within a block and the blocks A-D, H-J, N-R and V-Z do not overlap |
| Schema.AnalyticsColumns | sheets_utils.py:220 | the fixed 0-based indices the analytics read (B, I, P, X amounts; Q, Y locations) are the schema's own columns |
| Schema.AnalyticsLetters | sheets_utils.py:124-129 | the analytics' category letters are the schema's amount columns |
| Schema.EarliestConfigSame | sheets_writer.py:10-48 | the earliest writer's inline table equals the configuration table |
| Entities.Or | src/bookiebot/sheets/writer.py:75 | `a or b` is truthy exactly when one of them is |
| Entities.PyIntOf | intent_handlers.py:137 | `int()` keeps an int, and raises TypeError exactly for None |
| Entities.IntTextReadsBack | intent_handlers.py:137 | `int(str(k)) == k` for every integer |
| Entities.StrippedOrEmpty | src/bookiebot/sheets/writer.py:75 | `(v or "").strip()` is "" for a falsy value, the stripped text for text, and raises exactly for other truthy values |
| Entities.SubscriptLower | src/bookiebot/sheets_writer.py:66 | `d[key].lower()` succeeds exactly for text, raises KeyError exactly without the key, and lower-cases |
| Entities.Put | src/bookiebot/sheets/writer.py:148 | after `d[key] = v` the key holds v, every other key is unchanged, and a new key goes last |
| Sheet.ColumnOf | unit_tests/support/sheets_repo_stub.py:36-43 | one entry per row, the cell or "" where the row is too short |
| Sheet.InsertPosition | unit_tests/support/sheets_repo_stub.py:58 | the insert position lies within the grid |
| Sheet.GrownReaches | unit_tests/support/sheets_repo_stub.py:25-31 | after growing, the grid has at least `row` rows and row `row` has at least `col` cells |
| Sheet.GrownReadsSame | unit_tests/support/sheets_repo_stub.py:25-31 | growing never changes what any position reads, existing cells included |
| Sheet.ReadAfterUpdate | unit_tests/support/sheets_repo_stub.py:62-64 | `cell(r, c)` after `update_cell(r, c, v)` reads v |
| Sheet.UpdateLeavesOthers | unit_tests/support/sheets_repo_stub.py:62-64 | updating one cell leaves every other position reading as before |
| Sheet.InsertShifts | unit_tests/support/sheets_repo_stub.py:57-60 | an insert adds one row at max(index-1, 0), keeps the rows above, and shifts the later rows down by one |
| Sheet.FirstMatchUnique | unit_tests/support/sheets_repo_stub.py:49-54 | a case-insensitive match with no match before it in row-major order is the cell `find` returns |
| Sheet.FirstMatchNone | unit_tests/support/sheets_repo_stub.py:49-55 | with no match anywhere, `find` raises |
| Sheet.InMemoryWorksheet.constructor | unit_tests/support/sheets_repo_stub.py:21-23 | the sheet holds the given rows and title |
| Sheet.InMemoryWorksheet.EnsurePosition | unit_tests/support/sheets_repo_stub.py:25-31 | the loops leave the grid grown to reach (row, col), and return the 0-based indices |
| Sheet.InMemoryWorksheet.PadRows | unit_tests/support/sheets_repo_stub.py:26-27 | the first loop appends empty rows until there are at least `row` |
| Sheet.InMemoryWorksheet.WidenRow | unit_tests/support/sheets_repo_stub.py:29-30 | the second loop pads one row with empty cells to at least `col`, leaving the other rows alone |
| Sheet.InMemoryWorksheet.GetAllValues | unit_tests/support/sheets_repo_stub.py:33-34 | the result is the rows, as a value the caller cannot change the sheet through |
| Sheet.InMemoryWorksheet.ColValues | unit_tests/support/sheets_repo_stub.py:36-43 | the loop computes the column view, one entry per row |
| Sheet.InMemoryWorksheet.GetCell | unit_tests/support/sheets_repo_stub.py:45-47 | the sheet grows to reach the cell, and the cell read is what that position held before |
| Sheet.InMemoryWorksheet.Find | unit_tests/support/sheets_repo_stub.py:49-55 | the result is the first row-major cell whose lower-cased text contains the lower-cased needle, or ValueError when none does |
| Sheet.InMemoryWorksheet.InsertRow | unit_tests/support/sheets_repo_stub.py:57-60 | the rows become the rows with the stringified values inserted |
| Sheet.InMemoryWorksheet.UpdateCell | unit_tests/support/sheets_repo_stub.py:62-64 | the rows become the grown rows with the one cell overwritten |
| Sheet.Registry.constructor | src/bookiebot/sheets_repo.py:36-45 | the registry starts with the given repository |
| Sheet.SheetsRepoStub.constructor | unit_tests/support/sheets_repo_stub.py:73-82 | three new sheets titled Expense, Income and Subscriptions hold the given rows |
| Sheet.SheetsRepoStub.Enter | unit_tests/support/sheets_repo_stub.py:85-91 | entering installs the stub and remembers the previous repository |
| Sheet.SheetsRepoStub.Exit | unit_tests/support/sheets_repo_stub.py:92-93 | leaving puts the previous repository back |
| Sheet.SheetsRepoStub.Patched | unit_tests/support/sheets_repo_stub.py:84-93 | inside the block the stub is installed; afterwards the original repository is |
| Ledger.BlankIsZero | sheets_utils.py:10 | a blank cell is worth 0.0 |
| Ledger.MoneySumOfColumn | sheets_utils.py:10 | skipping blank cells does not change the sum of `clean_money` over a column |
| Ledger.SumColumnByRows | sheets_utils.py:7-10 | `_sum_column` from row 3 is the money in that column summed over the data rows |
| Ledger.ColumnTotalAppend | sheets_utils.py:7-10 | column totals add up over any split of the rows |
| Ledger.CategoriesMatchSchema | sheets_utils.py:124-129 | the analytics' category letters are the schema's amount columns, category by category |
| Ledger.LetterColumn | sheets_utils.py:8 | a one-letter column name is a column from 1 to 26 |
| Ledger.LetterColumnIndex | sheets_utils.py:8 | for one capital letter this is `column_index_from_string` |
| Ledger.CategoryColumns | sheets_utils.py:124-129 | B, I, P and X are columns 2, 9, 16 and 24 |
| Ledger.CategoryTotals | sheets_utils.py:130-131 | there are four totals, named as in the category literal, in its order |
| Ledger.ComputeTotals | sheets_utils.py:130-131 | the loop fills the category totals |
| Ledger.TotalForCategory | sheets_utils.py:200-211 | a name outside the four categories, after lower-casing, gives 0.0 |
| Ledger.TotalForCategoryRows | sheets_utils.py:200-211 | for each category the total is the money in its schema amount column over the data rows |
| Ledger.FirstMax | sheets_utils.py:132 | `max` by total picks an item no other exceeds, and the first of equal maxima |
| Ledger.HighestExpenseCategory | sheets_utils.py:121-133 | the result is the category with the largest total, ties going to the earliest of grocery, gas, food, shopping |
| Ledger.Shares | sheets_utils.py:184-198 | the breakdown is empty when the total is 0; otherwise it is each category's rounded percentage of the total |
| Ledger.BreakdownPercentages | sheets_utils.py:175-198 | the breakdown is that of the category totals |
| Ledger.SharesSumTo100 | sheets_utils.py:191-197 | for a non-zero grand total, the four shares of the breakdown computed without rounding add up to 100 |
| Ledger.TotalSpentAtStore | sheets_utils.py:84-119 | the loop gives the store total of the data rows for the lower-cased store |
| Ledger.StoreBothSections | sheets_utils.py:98-117 | a row whose food and shopping locations both name the store adds only its food amount |
| Ledger.StoreEmptyName | sheets_utils.py:100-105 | the empty store name matches every food location, so it takes every food amount |
| Ledger.StoreTotalAppend | sheets_utils.py:98-119 | the store total adds up over any split of the rows |
| Ranking.ScanRow | sheets_utils.py:223-232 | the inner loop is the running maximum over the row's amount cells |
| Ranking.LargestSingleExpense | sheets_utils.py:213-234 | the loops give the running maximum over every amount cell of the data rows in row-major B, I, P, X order |
| Ranking.LargestIsFirstMax | sheets_utils.py:216-232 | the value is at least 0 and every cell; no row comes back exactly when no cell is positive, and the value is then 0.0; otherwise the row is that of the first cell holding the maximum |
| Ranking.Take | sheets_utils.py:254 | `s[:n]` keeps min(n, |s|) leading entries, and a negative n counts from the end |
| Ranking.SortDescCorrect | sheets_utils.py:253 | the sort is non-increasing by amount, a permutation, and stable among equal amounts |
| Ranking.AppendRowCells | sheets_utils.py:244-251 | the inner loop appends (amount, row) for each amount column the row reaches |
| Ranking.CollectCells | sheets_utils.py:243-251 | the outer loop collects the amount cells of every row, in order |
| Ranking.TopNExpenses | sheets_utils.py:236-254 | the result is the first n of all amount cells sorted from largest |
| Ranking.TopNMeaning | sheets_utils.py:236-254 | for n >= 0 there are min(n, cells) entries, sorted, each drawn from the cells, none smaller than a cell left out |
| Periods.RowDate | sheets_utils.py:265-266 | a row's date, when it parses, is a real date |
| Periods.AddRowAmounts | sheets_utils.py:269-275 | the inner loop adds `clean_money` of each amount column the row reaches |
| Periods.SumWhere | sheets_utils.py:263-277 | the outer loop adds the money of every row whose column-A date the window selects |
| Periods.StartOfWeek | sheets_utils.py:261 | the start of the week is a Monday |
| Periods.SpentThisWeek | sheets_utils.py:256-278 | the total is the money of the rows dated at or after this Monday at the current time of day |
| Periods.WeekWindow | sheets_utils.py:260-267 | the window starts on the Monday of this week; a row dated that Monday counts only at midnight |
| Periods.Project | sheets_utils.py:303-307 | the projection is the daily average times the month length as the source computes it |
| Periods.ProjectedSpending | sheets_utils.py:280-307 | the projection of this month's money, dated by column A, for today |
| Periods.ProjectionOfSteadyRate | sheets_utils.py:303-307 | spending the same each day, the projection is that rate times the month's true length |
| Periods.WeekendVsWeekday | sheets_utils.py:309-335 | the two totals are the money of Saturday/Sunday rows and of the other dated rows, with no month filter |
| Periods.WeekendPartition | sheets_utils.py:316-334 | weekend plus weekday is the money of exactly the rows whose column-A date parses |
| Periods.SpendDays | sheets_utils.py:343-350 | the spending days are day numbers 1..31 |
| Periods.NoSpendDays | sheets_utils.py:337-354 | the result is the count and list of days up to today without a dated row this month; OverflowError in December of year 1 |
| Periods.NoSpendListMeaning | sheets_utils.py:353 | the list holds, in increasing order, exactly the days 1..today not spent on |
| Periods.NoSpendCount | sheets_utils.py:353-354 | no-spend days plus spending days up to today make up today's day number |
| Income.LookupRight | sheets_utils.py:48-49 | `find` then `cell` to the right give the found cell and the text right of it, growing the sheet as `cell` does |
| Income.PaidStatus | sheets_utils.py:45-56 | paid exactly when the amount is positive, and (False, 0.0) otherwise |
| Income.CheckPaid | sheets_utils.py:45-56 | the method's result is the paid status of its label |
| Income.CheckRentPaid | sheets_utils.py:45-56 | the status under "Rent" |
| Income.CheckUtilitiesPaid | sheets_utils.py:58-69 | the status under "SMUD" |
| Income.CheckStudentLoanPaid | sheets_utils.py:71-82 | the status under "Student Loan Payment" |
| Income.PaidFromRecordedAmount | sheets_utils.py:49-53 | a positive amount written right of the label reads as paid with that amount |
| Income.NotPaidWithoutDigits | sheets_utils.py:50-56 | a cell with no digit right of the label never reads as paid |
| Income.TotalIncome | sheets_utils.py:135-149 | the method's result is the income value of the sheet |
| Income.IncomeReadsBack | sheets_utils.py:138-143 | an amount written right of "Monthly Income:" reads back as exactly that amount |
| Income.RemainingBudget | sheets_utils.py:151-160 | the method's result is the value two columns right of "Margins:" |
| Income.MarginsReadBack | sheets_utils.py:154-157 | an amount written two columns right of "Margins:" reads back as exactly that amount |
| Income.FoundHoldsColon | sheets_utils.py:28-34 | the cell found for the burn-rate label holds a ":" |
| Income.CalculateBurnRate | sheets_utils.py:24-43 | the rate after the first ":" and the text two columns right, or (None, None) |
| Income.AverageDailySpend | sheets_utils.py:162-171 | the stripped text after the first ":" of the burn-rate cell, or None |
| Income.BurnRateAgrees | sheets_utils.py:162-171 | when both lookups land on one cell holding a single ":", both queries report the same rate |
| Writer.NormalizeStamp | src/bookiebot/sheets/writer.py:186-199 | a normalised entry carries the stamp of the day, which reads back as that day, and the person stripped |
| Writer.NormalizePerson | src/bookiebot/sheets/writer.py:193 | the entry's person is the given person stripped |
| Writer.NormalizeAmountDefault | src/bookiebot/sheets/writer.py:191 | a missing or falsy amount becomes 0.0 |
| Writer.NormalizeItem | src/bookiebot/sheets/writer.py:194-198 | a non-empty item entity wins over the food entity |
| Writer.NormalizeFood | src/bookiebot/sheets/writer.py:194-198 | the food entity stands in for a falsy item |
| Writer.MissingFieldsMeaning | src/bookiebot/sheets/writer.py:169-170 | a field is listed exactly when it is falsy, in the order amount, person, item, without repeats |
| Writer.Capitalize | src/bookiebot/sheets/writer.py:182 | the first letter upper-cased, the rest lower-cased |
| Writer.RefLetter | src/bookiebot/sheets/writer.py:209 | the reference column is one of the block's columns |
| Writer.TargetRowFresh | src/bookiebot/sheets/writer.py:209-212 | the target row is past the last row (or the block's start) and so is empty |
| Writer.WrittenElsewhere | src/bookiebot/sheets/writer.py:214-220 | writing touches no other row, and no column outside the block |
| Writer.WrittenCell | src/bookiebot/sheets/writer.py:214-220 | in the target row, a field's column holds the field's text |
| Writer.LogCategoryRow | src/bookiebot/sheets/writer.py:202-222 | the sheet becomes the logged grid for the block |
| Writer.ConfigColumnsApart | src/bookiebot/sheets/config.py:3-41 | no block of the table writes two fields to one column |
| Writer.ConfigFieldCell | src/bookiebot/sheets/writer.py:214-220 | after an append, each configured field's column holds the entry's text |
| Writer.LoggedOnlyTargetRow | src/bookiebot/sheets/writer.py:202-222 | an append changes no row but the target row |
| Writer.LoggedDateReadsBack | src/bookiebot/sheets/writer.py:190 | the written date reads back through the ledger's parser as the stamped day |
| Writer.LoggedAmountReadsBack | src/bookiebot/sheets/writer.py:191 | the written amount reads back through `clean_money` as itself |
| Writer.HasEntryStrip | src/bookiebot/sheets/writer.py:52 | the entry test is the strip test of the scan |
| Writer.LastEntryMeaning | src/bookiebot/sheets/writer.py:50-54 | the row found is the last row above the label with an entry, and none exactly when no row above has one |
| Writer.LastEntryRow | src/bookiebot/sheets/writer.py:49-54 | the backwards loop finds that row |
| Writer.WriteIncomeToSheet | src/bookiebot/sheets/writer.py:28-71 | with no sheet, the access error; otherwise the sheet becomes the income rows, and the confirmation is sent exactly when an anchor row exists |
| Writer.IncomeRowPlacement | src/bookiebot/sheets/writer.py:60-65 | the new row ["", description, amount] takes the place of the last entry, shifting it and the rows below down |
| Writer.IncomeNothingToAnchor | src/bookiebot/sheets/writer.py:42-58 | without the label or an entry above it, the sheet is unchanged |
| Writer.PendingStore.constructor | src/bookiebot/sheets/writer.py:18 | the map starts empty |
| Writer.PendingStore.Put | src/bookiebot/sheets/writer.py:133 | a newer request replaces the user's earlier entry |
| Writer.PendingStore.Pop | src/bookiebot/sheets/writer.py:136 | pop returns the user's entry if any and removes it |
| Writer.CheckedMissing | src/bookiebot/sheets/writer.py:168-176 | a falsy field (an amount of 0.0, an empty item even for grocery) aborts with the missing-fields reply |
| Writer.CheckedAppends | src/bookiebot/sheets/writer.py:168-178 | when the check appends, it appends the normalised entry with every required field set |
| Writer.SinglePersonAppends | src/bookiebot/sheets/writer.py:163-178 | a single-person append is for the given category and person, with every required field set |
| Writer.ChosenWrites | src/bookiebot/sheets/writer.py:148-154 | a choice that finds its entry writes it without a required-field check, and the reply raises exactly when there is no amount key |
| Writer.PutPersonKeepsAmount | src/bookiebot/sheets/writer.py:148-153 | setting the person leaves the amount entity as it was |
| Writer.ResolvedNobody | src/bookiebot/sheets/writer.py:118-129 | no resolved person gives an error reply, and nothing is written or stored |
| Writer.ResolvedMany | src/bookiebot/sheets/writer.py:132-161 | several resolved persons defer the request for a card choice |
| Writer.ResolvedSingle | src/bookiebot/sheets/writer.py:163-166 | one resolved person is the person the row is logged for |
| Writer.ResolvedAppends | src/bookiebot/sheets/writer.py:118-166 | a row is appended only when exactly one person was resolved, and in the requested category |
| Writer.Perform | src/bookiebot/sheets/writer.py:133-183 | an answer or crash changes nothing; a deferral stores the entry under the user; an append logs one row |
| Writer.HandleSelection | src/bookiebot/sheets/writer.py:135-154 | the user's entry is popped, so a second selection gets "Session expired" and writes nothing; the first writes with the captured sheet and category |
| CurrentWriter.FirstHuman | src/bookiebot/sheets/writer.py:104-111 | the first mention that is not a bot, or none exactly when all are bots |
| CurrentWriter.FindActor | src/bookiebot/sheets/writer.py:98-111 | the loop gives the acting user and id |
| CurrentWriter.ActorMeaning | src/bookiebot/sheets/writer.py:98-111 | the first human mentioned acts, under their own id |
| CurrentWriter.CategoryNormalised | src/bookiebot/sheets/writer.py:75 | the category is stripped and lower-cased |
| CurrentWriter.EveryoneIsNobody | src/bookiebot/sheets/writer.py:115-117 | "total", "all", "both", "everyone", "all persons" and "all people", in any case, name no person |
| CurrentWriter.MissingCategory | src/bookiebot/sheets/writer.py:75-79 | without a category the reply is the missing-category error, before any fetch or resolve |
| CurrentWriter.UnknownCategory | src/bookiebot/sheets/writer.py:81-83 | a category outside the schema is named back, whatever the sheet and the person |
| CurrentWriter.AppendsConfigured | src/bookiebot/sheets/writer.py:81-83 | a row is only appended for a schema category |
| CurrentWriter.EveryoneResolvesActor | src/bookiebot/sheets/writer.py:116-123 | a request for everyone resolves as if no person were given |
| CurrentWriter.WriteExpenseToSheet | src/bookiebot/sheets/writer.py:74-183 | the sheet and pending map change exactly as the outcome for the acting user says |
| CurrentWriter.WriteToSheet | src/bookiebot/sheets/writer.py:20-25 | type "income" goes to the income writer, any other type to the expense writer, and no type raises KeyError |
| EarlierWriter.MissingCategoryRaises | src/bookiebot/sheets_writer.py:66 | without a category the request raises KeyError first |
| EarlierWriter.CategoryNotStripped | src/bookiebot/sheets_writer.py:66-68 | the category is lower-cased but not stripped, so " gas" is unknown |
| EarlierWriter.PersonIsExplicit | src/bookiebot/sheets_writer.py:83-95 | any non-blank person, "both" included, goes to the resolver as explicit |
| EarlierWriter.AppendsConfigured | src/bookiebot/sheets_writer.py:66-69 | a row is only appended for a schema category |
| EarlierWriter.WriteExpenseToSheet | src/bookiebot/sheets_writer.py:65-142 | the sheet and pending map change as the outcome says |
| EarlierWriter.WriteToSheet | src/bookiebot/sheets_writer.py:16-21 | income goes to the income writer, other types to the expense writer |
| EarliestWriter.CardUserDefers | sheets_writer.py:122-144 | the card user is always asked for a card once the category and sheet are good |
| EarliestWriter.OthersLogForHannah | sheets_writer.py:146-159 | every row another author appends is logged for Hannah, in a table category |
| EarliestWriter.WriteExpenseToSheet | sheets_writer.py:105-164 | the sheet and pending map change as the outcome says |
| EarliestWriter.WriteToSheet | sheets_writer.py:53-58 | income goes to the income writer, other types to the expense writer |
| IntentText.RenderGroup | intent_explorer.py:231-234 | the inner loop numbers each intent's line on from the counter |
| IntentText.RenderGroups | intent_explorer.py:229-234 | the outer loop gives a heading per group, the counter running on across groups |
| IntentText.NumberedEntry | intent_explorer.py:231-234 | the listing of a group contains the line "from + k. `name`" for its k-th intent |
| IntentText.SectionsEntry | intent_explorer.py:228-234 | the whole listing contains the line "from + k. `name`" for the k-th intent counted across all groups |
| IntentText.RenderExamples | intent_explorer.py:254-255 | the loop renders one bullet per example |
| IntentText.BulletShown | intent_explorer.py:254-255 | every example appears as its own bullet line |
| IntentText.CardOpens | intent_explorer.py:251 | a description opens with the heading marker |
| IntentText.CardShows | intent_explorer.py:251-257 | a description shows its heading and every example |
| IntentText.CardWithoutExamples | intent_explorer.py:256-257 | without examples the description is the heading and the no-examples note |
| IntentText.RenderListing | intent_explorer.py:226-236 | the method builds the listing text |
| IntentText.ListingShows | intent_explorer.py:226-236 | the listing numbers entries consecutively from 1 across the groups in order |
| IntentText.RenderDescription | intent_explorer.py:240-259 | the method builds the description text |
| IntentText.DescriptionBounds | intent_explorer.py:242-244 | "Invalid number" comes exactly for numbers outside 1..len(intents) |
| IntentExplorer.FriendlyName | intent_explorer.py:45-47 | the mapped display name, or the intent itself when it is unmapped |
| IntentExplorer.ListingOrder | intent_explorer.py:197-222 | the groups list 35 intents, in the order shown |
| IntentExplorer.ListedOnce | intent_explorer.py:197-222 | no intent is listed twice |
| IntentExplorer.CatalogueConsistent | intent_explorer.py:6-222 | 35 distinct listed intents, each with a display name and details |
| IntentExplorer.SameKeys | intent_explorer.py:6-194 | the names table and the details table have the same keys in the same order |
| IntentExplorer.ListIntents | intent_explorer.py:226-236 | `list_intents()` is the listing |
| IntentExplorer.ListingNumbers | intent_explorer.py:226-236 | entry k shows the display name of the k-th listed intent |
| IntentExplorer.Details | intent_explorer.py:249 | a missing intent gets ("No description yet.", []); a present one its entry |
| IntentExplorer.DescribeIntent | intent_explorer.py:240-259 | `describe_intent(number)` is the description |
| IntentExplorer.DescribeBounds | intent_explorer.py:242-244 | exactly the numbers 1 to 11 are described |
| IntentExplorer.ListingAndDescribeDisagree | intent_explorer.py:242-246 | the listing numbers 35 grouped intents but `describe_intent` indexes the 11 of `INTENTS`: entry 2 shows "log_need_expense" yet number 2 describes "log_income" |
| IntentExplorer.FifthIntentUndetailed | intent_parser.py:9-21 | the fifth of `INTENTS`, "query_total_spent_at_store", has no details |
| IntentExplorer.FifthIntentUnnamed | intent_explorer.py:6-42 | it has no display name either |
| IntentExplorer.MissingDetails | intent_explorer.py:249-257 | number 5 is described under its raw name with the placeholder description and no examples |
| IntentHandlers.HandlerFor | intent_handlers.py:6-28 | a handler exists exactly for the table's keys |
| IntentHandlers.HandlersUnderstand | intent_handlers.py:30-35 | no handler sends the "could not understand" reply |
| IntentHandlers.UnknownIntent | intent_handlers.py:30-35 | the "could not understand" reply comes exactly for intents outside the table |
| IntentHandlers.FallbackNotUnderstood | intent_handlers.py:6-35 | "fallback" and "query_smud_paid" get that reply |
| IntentHandlers.LoggingWrites | intent_handlers.py:7-8 | both logging intents hand the entities to the writer |
| IntentHandlers.TopNDefault | intent_handlers.py:137 | without an "n" entity, n is 5 |
| IntentHandlers.TopNFromText | intent_handlers.py:137 | an "n" entity holding an integer's text asks for that many |
| IntentHandlers.MissingCategory | intent_handlers.py:110-114 | a falsy category asks for one without querying; a non-empty text queries |
| IntentHandlers.LastPaymentNeverAnswers | intent_handlers.py:118-123 | the handler asks for a target, or raises AttributeError when it has one, since the analytics define no `last_payment_to` |
| IntentHandlers.BurnRateReply | intent_handlers.py:38-45 | a rate gives the rate, with the description in parentheses when there is one |
| IntentHandlers.BurnRateError | intent_handlers.py:38-45 | the error reply comes exactly without a rate |
| IntentHandlers.PaidConfirms | intent_handlers.py:47-66 | the not-yet reply comes exactly when unpaid; a payment shows its amount |
| IntentHandlers.RemainingBudgetSides | intent_handlers.py:81-94 | "remaining" exactly for a non-negative value; otherwise the overrun by the absolute value |
| IntentHandlers.AverageReply | intent_handlers.py:96-98 | `:.2f` on the text or None that `average_daily_spend` returns always raises |
| IntentHandlers.EmptyBreakdown | intent_handlers.py:102-108 | the breakdown error comes exactly for an empty breakdown |
| IntentHandlers.NoLargestExpense | intent_handlers.py:129-134 | the no-expenses reply comes exactly when no row came back |
| IntentHandlers.NoTopN | intent_handlers.py:136-143 | the no-expenses reply comes exactly for an empty list |
| IntentHandlers.Reply | intent_handlers.py:38-164 | a handler's reply raises exactly for the average-daily-spend query |
| LlmParser.ParseReply | src/bookiebot/intents/parser.py:108-125 | a string is decoded, a dict returned, anything else or a failure gives the fallback request |
| LlmParser.FallbackShape | src/bookiebot/intents/parser.py:123-125 | the fallback names the "fallback" intent with no entities |
| LlmParser.NotFallbackFromClient | src/bookiebot/intents/parser.py:116-125 | a non-fallback reply came from the client: decoded text or the dict |
| LlmParser.StringAnswerDecoded | src/bookiebot/intents/parser.py:116-117 | a string answer is returned as its decoded value |
| LlmParser.NoShapeCheck | src/bookiebot/intents/parser.py:116-122 | a string decoding to a non-object is returned as is |
| LlmParser.DefaultClient.constructor | src/bookiebot/intents/parser.py:12 | no default client at first |
| LlmParser.DefaultClient.Get | src/bookiebot/intents/parser.py:15-19 | the cached client, or a new one that is then cached |
| LlmParser.DefaultClientOnce | src/bookiebot/intents/parser.py:15-19 | once created, the default client is the one every later call returns |
| LlmParser.ParseMessage | src/bookiebot/intents/parser.py:22-125 | a given client is used and the default left alone; otherwise the default answers |
| LogBuffer.Tail | src/bookiebot/logging_config.py:90 | `[-limit:]`: the newest min(limit, n) lines for limit > 0, all for 0, all but the oldest -limit for limit < 0 |
| LogBuffer.Keep | src/bookiebot/logging_config.py:87-89 | a line is kept exactly when it is in the input and passes the filter |
| LogBuffer.KeepConcat | src/bookiebot/logging_config.py:87-89 | the comprehension distributes over concatenation, so kept lines stay in input order, each as often as it occurs |
| LogBuffer.KeepOne | src/bookiebot/logging_config.py:87-89 | one line is kept exactly when it passes |
| LogBuffer.Filtered | src/bookiebot/logging_config.py:85-89 | a line passes exactly when it matches the level tag and the case-insensitive needle |
| LogBuffer.FilteredConcat | src/bookiebot/logging_config.py:85-89 | both filters together keep the passing lines in order: filtering distributes over concatenation and keeps a single line exactly when it passes both |
| LogBuffer.AppendAllKeepsNewest | src/bookiebot/logging_config.py:30-35 | however many lines are logged, the buffer is the newest 2000 of them |
| LogBuffer.LogRing.constructor | src/bookiebot/logging_config.py:11 | the buffer starts empty |
| LogBuffer.LogRing.Append | src/bookiebot/logging_config.py:30-35 | the message is the newest line, and a full buffer drops its oldest |
| LogBuffer.LogRing.Recent | src/bookiebot/logging_config.py:83-90 | only matching lines, the newest of them, as many as the limit allows |
| LogBuffer.UnfilteredTail | src/bookiebot/logging_config.py:83-90 | without filters the reply is the newest `limit` lines |
| LogBuffer.LevelCaseless | src/bookiebot/logging_config.py:85-87 | "error" and "ERROR" select the same lines |
| FixtureLoader.RemoveAll | unit_tests/support/fixture_loader.py:17 | `replace(pat, "")` never lengthens the text |
| FixtureLoader.ResolvePlaceholder | unit_tests/support/fixture_loader.py:15-21 | a value not starting with "__TODAY__" is returned unchanged; a changed value was a marker and became text |
| FixtureLoader.PlaceholderOffset | unit_tests/support/fixture_loader.py:15-21 | "__TODAY__k" becomes a date text that reads back as today plus k days |
| FixtureLoader.PlaceholderToday | unit_tests/support/fixture_loader.py:15-20 | the bare marker is today's date |
| FixtureLoader.OffsetText | unit_tests/support/fixture_loader.py:16-18 | removing the marker leaves the offset's text |
| FixtureLoader.Stringified | unit_tests/support/fixture_loader.py:30-31 | a list row is stringified cell by cell |
| FixtureLoader.WidestIn | unit_tests/support/fixture_loader.py:35-38 | the widest letter column and `acc`, or the error of a bad letter |
| FixtureLoader.Widest | unit_tests/support/fixture_loader.py:34-38 | a success is at least min_columns and accepts every letter of every row at that width |
| FixtureLoader.WidestAttained | unit_tests/support/fixture_loader.py:34-38 | the width is min_columns or the column of some letter, so with `Widest` it is exactly their maximum |
| FixtureLoader.WidestColumn | unit_tests/support/fixture_loader.py:34-38 | the nested loops compute that width |
| FixtureLoader.Fill | unit_tests/support/fixture_loader.py:42-45 | filling keeps the row's width; the first bad letter, bad offset or column past the row is the error |
| FixtureLoader.PlaceCell | unit_tests/support/fixture_loader.py:43-45 | placing one item writes its resolved text at its own column and changes no other column |
| FixtureLoader.PlaceItem | unit_tests/support/fixture_loader.py:43-45 | the array write stores what placing the item gives, or reports its error |
| FixtureLoader.FillFits | unit_tests/support/fixture_loader.py:34-45 | at the width the first loop computes no item falls outside its row, so filling fails exactly when some placeholder raises: an offset that is not an integer (ValueError) or one that leaves years 1..9999 (OverflowError) |
| FixtureLoader.FillPlaces | unit_tests/support/fixture_loader.py:42-45 | a named column holds the last value written to it; other columns keep their text |
| FixtureLoader.FillRow | unit_tests/support/fixture_loader.py:41-46 | the array loop fills a blank row, stopping at the first item that raises |
| FixtureLoader.FillAll | unit_tests/support/fixture_loader.py:40-46 | every row is filled in order; a list row among mapping rows raises AttributeError |
| FixtureLoader.NormalizeSheetRows | unit_tests/support/fixture_loader.py:26-48 | the method computes the normalised rows |
| FixtureLoader.NormalizedGrid | unit_tests/support/fixture_loader.py:34-48 | every mapping row is exactly max(min_columns, widest letter) wide (no smaller than either, and equal to one of them), with values at their letters and "" elsewhere |
| FixtureLoader.ListRowsKept | unit_tests/support/fixture_loader.py:30-31 | list rows are only stringified |
| FixtureLoader.MinColumns | unit_tests/support/fixture_loader.py:58-60 | the default is 26, and a letter value is read as its column |
| FixtureLoader.LetterMinimum | unit_tests/support/fixture_loader.py:58-60 | "Z" is the default 26, and "ab" is 28 |

## Left out

- Case mapping is ASCII only: `lower`, `upper` and `capitalize` leave other letters alone.
- `float()` reads only optionally signed decimal numerals. Exponents, "inf", "nan" and underscores are not modelled; they are parse failures here.
- `str(x)` of a float is its exact decimal expansion with at most 17 places. Binary rounding is not modelled.
- Money.PyFloatOfRepr, Money.CleanMoneyOfRepr, Money.CleanMoneyIdempotent, Writer.LoggedAmountReadsBack, Income.PaidFromRecordedAmount, Income.IncomeReadsBack and Income.MarginsReadBack: each holds only for amounts with at most 17 decimal places, because `str` is modelled that way. Python's `str` also switches to exponent form below 1e-4 and at or above 1e16; the model always renders fixed-point.
- Ledger.BreakdownPercentages: `round(x, 2)` is a parameter, so the contract is stated for any rounding function.
- IntentHandlers.PaidConfirms: `:.2f` is a parameter, so the reply carries the parameter's text.
- IntentHandlers.ListRepr renders a row inside a reply (`{row}`) as `['a', 'b']`, always with single quotes and without escaping; Python's choice of double quotes for text holding a single quote, and its backslash escapes, are not modelled.
- `int()` accepts underscores and non-ASCII digits in Python. Here only optional sign and ASCII digits between whitespace are read.
- Calendar.ParseMdY: the `\d` of `strptime` also matches non-ASCII decimal digits; the model reads ASCII digits only, so such text is a ValueError here.
- Message objects are reduced to the author's name, id and mentions. Replies are returned instead of sent, and member attributes other than name, display name, id and bot are not modelled.
- The clock is a parameter: `today`/`now` for the analytics, a stamp string for the writers, and `today` for the fixture loader.
- `resolve_query_persons` lives outside the modelled code, so it is a function parameter.
- `json.loads` is a function parameter.
- The prompt text of `parse_message_llm` is not modelled, and neither is the network call. Whether the `OpenAIClient()` construction can raise is not modelled either.
- Async scheduling and concurrent use of the pending map, the log ring and the default client are not modelled.
- A sheet fetch that fails or returns None is modelled as a null worksheet.
- Writer.WriteIncomeToSheet: in the earlier revision (src/bookiebot/sheets_writer.py:23-37) a fetch that raises replies "Error accessing income sheet.", as the model's null sheet does; a fetch that returns None instead fails at `ws.find`, whose AttributeError the bare `except` swallows with no reply at all. The model does not tell the two apart and replies the access error for both.
- EarliestWriter.WriteToSheet: its first income-sheet fetch is unguarded, so the model takes a fetched sheet.
- Replies whose text is garbled by a wrong encoding in the source are modelled through their own constants.
- `run_navigation_loop` is console I/O and is not part of this model.
- IntentHandlers.RemainingBudgetSides: the NaN branch of the remaining-budget reply is not modelled, because amounts are reals.
- `_redact`, `JsonFormatter`, `init_logging` and `uptime_seconds` are formatting, regular-expression and clock code and are not part of this model. Log lines are the formatted text, and the level filter matches the `"level": "X"` tag in that text.
- `load_sheet_fixture` and `build_repo_from_fixture` read files and are not part of this model. Only the "columns" value they turn into a minimum is modelled.
- FixtureLoader.MinColumns: a float or null "columns" value is not modelled; the value is absent, a count or letters.
- Placeholder values that are lists or dictionaries are not modelled. Fixture values are scalars.
- `get_all_values` copies rows; the model returns the grid as a value, so the copy has no aliasing to lose.
- Only the valid schema letters are used by the writers, so `column_index_from_string` errors cannot arise there.
- The newer utils module that some tests target (with `persons`, `get_local_today` and dictionary results) is not part of this model.
