/**
 * The expense and income writer of src/bookiebot/sheets/writer.py: routing
 * by entity type, and the expense path that checks the category, picks the
 * acting Discord user (the author, or the first human the message
 * mentions), resolves the person to log for and then logs, defers to a card
 * choice, or answers.
 */
module CurrentWriter {
  import opened Wrappers
  import opened PyText
  import opened Schema
  import opened Sheet
  import opened Entities
  import opened Writer

  /** A Discord user: name, display name, id as text (None when the id is None) and the bot flag. */
  datatype Member = Member(name: string, displayName: string, id: Option<string>, bot: bool)

  /**
   * `resolve_query_persons(user, person, user_id)`, which maps a Discord
   * user and an optional explicit person to the persons to log for.
   */
  type Resolver = (string, Option<string>, Option<string>) -> seq<string>

  /** Requests for every person are treated as naming no one. */
  const AllPersons: set<string> := {"total", "all", "both", "everyone", "all persons", "all people"}

  /** The position of the first mention that is not a bot. */
  function FirstHuman(mentions: seq<Member>): (r: Option<nat>)
    ensures r.Some? ==> r.value < |mentions| && !mentions[r.value].bot &&
                        forall j :: 0 <= j < r.value ==> mentions[j].bot
    ensures r.None? <==> forall j :: 0 <= j < |mentions| ==> mentions[j].bot
  {
    if mentions == [] then None
    else if !mentions[0].bot then Some(0)
    else match FirstHuman(mentions[1..])
      case None => None
      case Some(k) => Some(k + 1)
  }

  /** `name or display_name`. */
  function ShownName(m: Member): string {
    if m.name != "" then m.name else m.displayName
  }

  /** The user name (lower-cased) and id the persons are resolved for. */
  function Actor(author: Member, mentions: seq<Member>): (string, Option<string>) {
    match FirstHuman(mentions)
    case None => (Lower(author.name), author.id)
    case Some(k) => (Lower(ShownName(mentions[k])), mentions[k].id)
  }

  /** The loop over `message.mentions` that skips bots and stops at the first human. */
  method FindActor(author: Member, mentions: seq<Member>) returns (user: string, userId: Option<string>)
    ensures (user, userId) == Actor(author, mentions)
  {
    user := Lower(author.name);
    userId := author.id;
    var i := 0;
    while i < |mentions|
      invariant 0 <= i <= |mentions|
      invariant forall j :: 0 <= j < i ==> mentions[j].bot
    {
      if !mentions[i].bot {
        user := Lower(ShownName(mentions[i]));
        userId := mentions[i].id;
        return;
      }
      i := i + 1;
    }
  }

  /** Without a human mention the author acts; otherwise the first human mentioned does, under their own id. */
  lemma ActorMeaning(author: Member, mentions: seq<Member>, k: nat)
    requires k < |mentions| && !mentions[k].bot && forall j :: 0 <= j < k ==> mentions[j].bot
    ensures Actor(author, mentions) == (Lower(ShownName(mentions[k])), mentions[k].id)
  {
  }

  /** `(data.get("category") or "").strip().lower()`. */
  function RequestedCategory(data: Data): Result<string> {
    match StrippedText(Or(Lookup(data, "category"), Str("")))
    case Raised(e) => Raised(e)
    case Ok(c) => Ok(Lower(c))
  }

  /** `(data.get("person") or "").strip()`, with the every-person words read as no person. */
  function RequestedPerson(data: Data): Result<string> {
    match StrippedText(Or(Lookup(data, "person"), Str("")))
    case Raised(e) => Raised(e)
    case Ok(p) => Ok(if Lower(p) in AllPersons then "" else p)
  }

  /** Surrounding spaces and letter case do not matter in the category. */
  lemma CategoryNormalised(data: Data, s: string)
    requires Lookup(data, "category") == Str(s)
    ensures RequestedCategory(data) == Ok(Lower(Strip(s)))
  {
    StrippedOrEmpty(Str(s));
  }

  /** "total", "both" and the like, in any case and with spaces around, name no person. */
  lemma EveryoneIsNobody(data: Data, s: string)
    requires Lookup(data, "person") == Str(s) && Lower(Strip(s)) in AllPersons
    ensures RequestedPerson(data) == Ok("")
  {
    StrippedOrEmpty(Str(s));
  }

  /** `write_expense_to_sheet` up to its effect, for the acting user and a sheet that was or was not fetched. */
  function ExpenseOutcome(data: Data, sheetFound: bool, user: string, userId: Option<string>,
                          resolve: Resolver, stamp: string): Outcome
  {
    match RequestedCategory(data)
    case Raised(e) => Crash(e)
    case Ok(category) =>
      if category == "" then Answer("❌ Could not log entry — missing category.")
      else if Get(Config, category).None? then Answer("❌ Unknown category: " + category)
      else if !sheetFound then Answer("Error accessing expense sheet.")
      else match RequestedPerson(data)
        case Raised(e) => Crash(e)
        case Ok(person) =>
          Resolved(data, category, person, resolve(user, if person == "" then None else Some(person), userId), stamp)
  }

  /** The category is checked first: without one, nothing is resolved, written or stored. */
  lemma MissingCategory(data: Data, sheetFound: bool, user: string, userId: Option<string>, resolve: Resolver, stamp: string)
    requires !Truthy(Lookup(data, "category"))
    ensures ExpenseOutcome(data, sheetFound, user, userId, resolve, stamp) ==
      Answer("❌ Could not log entry — missing category.")
  {
    StrippedOrEmpty(Lookup(data, "category"));
  }

  /** A category outside the schema is named back, whatever the sheet and the person. */
  lemma UnknownCategory(data: Data, category: string, sheetFound: bool, user: string, userId: Option<string>,
                        resolve: Resolver, stamp: string)
    requires RequestedCategory(data) == Ok(category) && category != "" && Get(Config, category).None?
    ensures ExpenseOutcome(data, sheetFound, user, userId, resolve, stamp) == Answer("❌ Unknown category: " + category)
  {
  }

  /** A row is only ever appended for a category of the schema. */
  lemma AppendsConfigured(data: Data, sheetFound: bool, user: string, userId: Option<string>, resolve: Resolver, stamp: string)
    requires ExpenseOutcome(data, sheetFound, user, userId, resolve, stamp).Append?
    ensures var o := ExpenseOutcome(data, sheetFound, user, userId, resolve, stamp);
      Get(Config, o.category).Some? && RequestedCategory(data) == Ok(o.category)
  {
    var o := ExpenseOutcome(data, sheetFound, user, userId, resolve, stamp);
    var category := RequestedCategory(data).value;
    var person := RequestedPerson(data).value;
    var persons := resolve(user, if person == "" then None else Some(person), userId);
    assert o == Resolved(data, category, person, persons, stamp);
    ResolvedAppends(data, category, person, persons, stamp);
  }

  /** A request for everyone resolves as if no person had been given. */
  lemma EveryoneResolvesActor(data: Data, s: string, user: string, userId: Option<string>, resolve: Resolver, stamp: string)
    requires Lookup(data, "person") == Str(s) && Lower(Strip(s)) in AllPersons
    requires RequestedCategory(data).Ok? && Get(Config, RequestedCategory(data).value).Some?
    ensures ExpenseOutcome(data, true, user, userId, resolve, stamp) ==
      Resolved(data, RequestedCategory(data).value, "", resolve(user, None, userId), stamp)
  {
    EveryoneIsNobody(data, s);
    ConfigCategories();
  }

  /** The prompt that asks for the card. */
  function CardPrompt(mention: string): string {
    mention + ", which card did you use?"
  }

  /**
   * `write_expense_to_sheet(data, message)`. A `ws` of null stands for a
   * sheet that could not be fetched; `mention` is the author's mention.
   */
  method WriteExpenseToSheet(store: PendingStore, ws: InMemoryWorksheet?, data: Data, author: Member,
                             mentions: seq<Member>, mention: string, resolve: Resolver, stamp: string)
    returns (reply: Result<Option<string>>)
    modifies store, ws
    ensures var (user, userId) := Actor(author, mentions);
      var o := ExpenseOutcome(data, ws != null, user, userId, resolve, stamp);
      Effect(o, Config, old(RowsOf(ws)), RowsOf(ws), old(store.entries), store.entries,
             user, Pending(data, ws, DeferredCategory(o)), CardPrompt(mention), reply)
  {
    var user, userId := FindActor(author, mentions);
    var o := ExpenseOutcome(data, ws != null, user, userId, resolve, stamp);
    if ws == null {
      reply := if o.Crash? then Raised(o.error) else Ok(Some(o.text));
      return;
    }
    if o.Append? {
      AppendsConfigured(data, true, user, userId, resolve, stamp);
      ConfigWellFormed(o.category);
    }
    reply := Perform(o, Config, store, ws, user, Pending(data, ws, DeferredCategory(o)), CardPrompt(mention));
  }

  /** `write_to_sheet(data, message)`: income entities go to the income sheet, all others to the expense path. */
  method WriteToSheet(store: PendingStore, expenseWs: InMemoryWorksheet?, incomeWs: InMemoryWorksheet?, data: Data,
                      author: Member, mentions: seq<Member>, mention: string, resolve: Resolver, stamp: string)
    returns (reply: Result<Option<string>>)
    requires expenseWs == null || expenseWs != incomeWs
    modifies store, expenseWs, incomeWs
    ensures IsIncome(data).Raised? ==>
      reply == Raised("KeyError") && store.entries == old(store.entries) &&
      RowsOf(expenseWs) == old(RowsOf(expenseWs)) && RowsOf(incomeWs) == old(RowsOf(incomeWs))
    ensures IsIncome(data) == Ok(true) ==>
      store.entries == old(store.entries) && RowsOf(expenseWs) == old(RowsOf(expenseWs)) &&
      (incomeWs == null ==> reply == Ok(Some("Error accessing income sheet."))) &&
      (incomeWs != null ==>
         (incomeWs.rows == IncomeRows(old(incomeWs.rows), data) &&
          reply == Ok(if IncomeIndex(old(incomeWs.rows)).Some? then Some(IncomeReply(data)) else None)))
    ensures IsIncome(data) == Ok(false) ==>
      RowsOf(incomeWs) == old(RowsOf(incomeWs)) &&
      var (user, userId) := Actor(author, mentions);
      var o := ExpenseOutcome(data, expenseWs != null, user, userId, resolve, stamp);
      Effect(o, Config, old(RowsOf(expenseWs)), RowsOf(expenseWs), old(store.entries), store.entries,
             user, Pending(data, expenseWs, DeferredCategory(o)), CardPrompt(mention), reply)
  {
    var route := IsIncome(data);
    if route.Raised? {
      return Raised(route.error);
    }
    if route.value {
      var r := WriteIncomeToSheet(incomeWs, data);
      return Ok(r);
    }
    reply := WriteExpenseToSheet(store, expenseWs, data, author, mentions, mention, resolve, stamp);
  }
}
