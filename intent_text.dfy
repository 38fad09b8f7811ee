/**
 * The text the intent explorer renders (intent_explorer.py): the numbered
 * listing of the intent groups and the bullet list of an intent's examples.
 * The shown name of an intent is a parameter here; the explorer passes its
 * friendly-name lookup.
 */
module IntentText {
  import opened PyText

  /** One numbered entry of the listing: "<number>. `<name>`". */
  function EntryLine(number: nat, shown: string): string {
    NatToString(number) + ". `" + shown + "`\n"
  }

  /** The heading line that opens a group. */
  function GroupHeading(groupName: string): string {
    "\n__" + groupName + "__\n"
  }

  /** The number of intents in the groups. */
  function Count(groups: seq<(string, seq<string>)>): nat {
    if groups == [] then 0 else Count(groups[..|groups| - 1]) + |groups[|groups| - 1].1|
  }

  /** The intents of the groups, group after group. */
  function Flatten(groups: seq<(string, seq<string>)>): (r: seq<string>)
    ensures |r| == Count(groups)
  {
    if groups == [] then [] else Flatten(groups[..|groups| - 1]) + groups[|groups| - 1].1
  }

  /** The entries for `intents`, numbered on from `from`. */
  function Numbered(intents: seq<string>, from: nat, name: string -> string): string {
    if intents == [] then ""
    else Numbered(intents[..|intents| - 1], from, name) + EntryLine(from + |intents| - 1, name(intents[|intents| - 1]))
  }

  /** Each group under its heading, the entries numbered on from `from` across the groups. */
  function Sections(groups: seq<(string, seq<string>)>, from: nat, name: string -> string): string {
    if groups == [] then ""
    else
      var init := groups[..|groups| - 1];
      Sections(init, from, name) + Section(groups[|groups| - 1], from + Count(init), name)
  }

  /** One group under its heading, its entries numbered on from `start`. */
  function Section(group: (string, seq<string>), start: nat, name: string -> string): string {
    GroupHeading(group.0) + Numbered(group.1, start, name)
  }

  /** The inner loop of `list_intents()`: a line per intent, numbered on from `from`. */
  method RenderGroup(intents: seq<string>, from: nat, name: string -> string) returns (output: string)
    ensures output == Numbered(intents, from, name)
  {
    output := "";
    var counter := from;
    var j := 0;
    while j < |intents|
      invariant 0 <= j <= |intents|
      invariant counter == from + j
      invariant output == Numbered(intents[..j], from, name)
    {
      assert intents[..j + 1][..j] == intents[..j];
      var friendly := name(intents[j]);
      output := output + EntryLine(counter, friendly);
      counter := counter + 1;
      j := j + 1;
    }
    assert intents[..j] == intents;
  }

  /** Taking one more group adds its heading and its entries, numbered on from the count so far. */
  lemma {:induction false} SectionsStep(groups: seq<(string, seq<string>)>, g: nat, name: string -> string)
    requires g < |groups|
    ensures Count(groups[..g + 1]) == Count(groups[..g]) + |groups[g].1|
    ensures Sections(groups[..g + 1], 1, name) ==
            Sections(groups[..g], 1, name) + Section(groups[g], 1 + Count(groups[..g]), name)
  {
    assert groups[..g + 1][..g] == groups[..g];
  }

  /**
   * The loop of `list_intents()` without its header and footer: a heading per
   * group, then a line per intent, the counter running on across the groups.
   */
  method RenderGroups(groups: seq<(string, seq<string>)>, name: string -> string) returns (output: string)
    ensures output == Sections(groups, 1, name)
  {
    output := "";
    var counter := 1;
    var g := 0;
    while g < |groups|
      invariant 0 <= g <= |groups|
      invariant counter == 1 + Count(groups[..g])
      invariant output == Sections(groups[..g], 1, name)
    {
      var (groupName, intents) := groups[g];
      var entries := RenderGroup(intents, counter, name);
      output := output + GroupHeading(groupName) + entries;
      counter := counter + |intents|;
      SectionsStep(groups, g, name);
      g := g + 1;
    }
    assert groups[..g] == groups;
  }

  /** Entry `k` of `intents`, shown as `shown`, is a line of its own among their entries, with the number `from + k`. */
  lemma {:induction false} NumberedEntry(intents: seq<string>, from: nat, name: string -> string, k: nat,
                                         number: nat, shown: string) returns (before: string, after: string)
    requires k < |intents| && number == from + k && shown == name(intents[k])
    ensures Numbered(intents, from, name) == before + EntryLine(number, shown) + after
    decreases |intents|
  {
    var init := intents[..|intents| - 1];
    if k == |intents| - 1 {
      before, after := Numbered(init, from, name), "";
    } else {
      assert init[k] == intents[k];
      var b, a := NumberedEntry(init, from, name, k, number, shown);
      var lastLine := EntryLine(from + |intents| - 1, name(intents[|intents| - 1]));
      before, after := b, a + lastLine;
      Regroup(b, EntryLine(number, shown), a, lastLine);
    }
  }

  /** `a + b + c + d` read as `a`, `b`, then `c + d`. */
  lemma Regroup(a: string, b: string, c: string, d: string)
    ensures a + b + c + d == a + b + (c + d)
  {
  }

  /** `a + (b + c + d) + e` read as `a + b`, `c`, then `d + e`. */
  lemma Enclose(a: string, b: string, c: string, d: string, e: string)
    ensures a + (b + c + d) + e == (a + b) + c + (d + e)
  {
  }

  /** `a + (b + (c + d + e))` read as `a + b + c`, `d`, then `e`. */
  lemma Nest(a: string, b: string, c: string, d: string, e: string)
    ensures a + (b + (c + d + e)) == a + b + c + d + e
  {
  }

  /** Before the last group, the flattened intents are those of the earlier groups. */
  lemma FlattenEarlier(groups: seq<(string, seq<string>)>, k: nat)
    requires groups != [] && k < Count(groups[..|groups| - 1])
    ensures Flatten(groups)[k] == Flatten(groups[..|groups| - 1])[k]
  {
    assert Flatten(groups) == Flatten(groups[..|groups| - 1]) + groups[|groups| - 1].1;
  }

  /** Past the earlier groups, the flattened intents are those of the last group. */
  lemma FlattenLast(groups: seq<(string, seq<string>)>, k: nat)
    requires groups != [] && Count(groups[..|groups| - 1]) <= k < Count(groups)
    ensures k - Count(groups[..|groups| - 1]) < |groups[|groups| - 1].1|
    ensures Flatten(groups)[k] == groups[|groups| - 1].1[k - Count(groups[..|groups| - 1])]
  {
    assert Flatten(groups) == Flatten(groups[..|groups| - 1]) + groups[|groups| - 1].1;
  }

  /** A line of the earlier groups' sections stays a line when the last group's section follows. */
  lemma EarlierEntry(groups: seq<(string, seq<string>)>, from: nat, name: string -> string,
                     line: string, b: string, a: string) returns (before: string, after: string)
    requires groups != []
    requires Sections(groups[..|groups| - 1], from, name) == b + line + a
    ensures Sections(groups, from, name) == before + line + after
  {
    var section := Section(groups[|groups| - 1], from + Count(groups[..|groups| - 1]), name);
    before, after := b, a + section;
    Regroup(b, line, a, section);
  }

  /** A line of the last group's entries is a line of the sections. */
  lemma LastEntry(groups: seq<(string, seq<string>)>, from: nat, name: string -> string,
                  line: string, b: string, a: string) returns (before: string, after: string)
    requires groups != []
    requires Numbered(groups[|groups| - 1].1, from + Count(groups[..|groups| - 1]), name) == b + line + a
    ensures Sections(groups, from, name) == before + line + after
  {
    var earlier := Sections(groups[..|groups| - 1], from, name);
    var heading := GroupHeading(groups[|groups| - 1].0);
    var section := Section(groups[|groups| - 1], from + Count(groups[..|groups| - 1]), name);
    assert Sections(groups, from, name) == earlier + section;
    assert section == heading + (b + line + a);
    before, after := earlier + heading + b, a;
    Nest(earlier, heading, b, line, a);
  }

  /**
   * The `k`-th intent across the groups, shown as `shown`, is a line of its
   * own in the sections, with the number `from + k`.
   */
  lemma {:induction false} SectionsEntry(groups: seq<(string, seq<string>)>, from: nat, name: string -> string, k: nat,
                                         number: nat, shown: string) returns (before: string, after: string)
    requires k < Count(groups) && number == from + k && shown == name(Flatten(groups)[k])
    ensures Sections(groups, from, name) == before + EntryLine(number, shown) + after
    decreases |groups|
  {
    var init := groups[..|groups| - 1];
    var last := groups[|groups| - 1];
    if k < Count(init) {
      FlattenEarlier(groups, k);
      var b, a := SectionsEntry(init, from, name, k, number, shown);
      before, after := EarlierEntry(groups, from, name, EntryLine(number, shown), b, a);
    } else {
      FlattenLast(groups, k);
      var b, a := NumberedEntry(last.1, from + Count(init), name, k - Count(init), number, shown);
      before, after := LastEntry(groups, from, name, EntryLine(number, shown), b, a);
    }
  }

  /** One example line of a description: "• `<example>`". */
  function Bullet(example: string): string {
    "\U{E2}\U{20AC}\U{A2} `" + example + "`\n"
  }

  /** The example lines, in order. */
  function Bullets(examples: seq<string>): string {
    if examples == [] then "" else Bullets(examples[..|examples| - 1]) + Bullet(examples[|examples| - 1])
  }

  /** The examples loop of `describe_intent()`. */
  method RenderExamples(examples: seq<string>) returns (output: string)
    ensures output == Bullets(examples)
  {
    output := "";
    var i := 0;
    while i < |examples|
      invariant 0 <= i <= |examples|
      invariant output == Bullets(examples[..i])
    {
      assert examples[..i + 1][..i] == examples[..i];
      output := output + Bullet(examples[i]);
      i := i + 1;
    }
    assert examples[..i] == examples;
  }

  /** Every example appears, as its own bullet line. */
  lemma {:induction false} BulletShown(examples: seq<string>, k: nat)
    requires k < |examples|
    ensures Contains(Bullets(examples), Bullet(examples[k]))
    decreases |examples|
  {
    var init := examples[..|examples| - 1];
    var lastLine := Bullet(examples[|examples| - 1]);
    if k == |examples| - 1 {
      ContainsSelf(lastLine);
      ContainsRight(Bullets(init), lastLine, lastLine);
    } else {
      assert init[k] == examples[k];
      BulletShown(init, k);
      ContainsLeft(Bullets(init), lastLine, Bullet(examples[k]));
    }
  }

  const ExamplesHeading := "**Examples:**\n"
  const NoExamples := "No examples available yet."

  /** The first two lines of a description: the shown name in bold, then the description. */
  function Heading(shown: string, description: string): string {
    "\U{11F}\U{178}\U{201D}\U{B7} **" + shown + "**\n**Description:** " + description + "\n"
  }

  /** The description of one intent: its heading, then its examples or a note that it has none. */
  function Card(shown: string, description: string, examples: seq<string>): string {
    Heading(shown, description) + (if examples != [] then ExamplesHeading + Bullets(examples) else NoExamples)
  }

  /** A description opens with the heading's marker, whatever the intent. */
  lemma CardOpens(shown: string, description: string, examples: seq<string>)
    ensures |Card(shown, description, examples)| > 0 && Card(shown, description, examples)[0] == '\U{11F}'
  {
    assert Card(shown, description, examples)[0] == Heading(shown, description)[0];
  }

  /** A description shows its heading and each of its examples, or, with none, says so. */
  lemma CardShows(shown: string, description: string, examples: seq<string>, k: nat)
    requires k < |examples|
    ensures Contains(Card(shown, description, examples), Heading(shown, description))
    ensures Contains(Card(shown, description, examples), Bullet(examples[k]))
  {
    var rest := ExamplesHeading + Bullets(examples);
    ContainsSelf(Heading(shown, description));
    ContainsLeft(Heading(shown, description), rest, Heading(shown, description));
    BulletShown(examples, k);
    ContainsRight(ExamplesHeading, Bullets(examples), Bullet(examples[k]));
    ContainsRight(Heading(shown, description), rest, Bullet(examples[k]));
  }

  /** Without examples the description ends with the note that there are none. */
  lemma CardWithoutExamples(shown: string, description: string)
    ensures Contains(Card(shown, description, []), NoExamples)
    ensures |Card(shown, description, [])| == |Heading(shown, description)| + |NoExamples|
  {
    ContainsSelf(NoExamples);
    ContainsRight(Heading(shown, description), NoExamples, NoExamples);
  }

  // ---------------------------------------------------- whole texts, generic

  const ListingHeader := "**Available Intents:**\n"
  const ListingFooter := "\n\U{E2}\U{A1}\U{EF}\U{B8} Type a number (e.g., `4`) to learn more about that intent."
  // The marker is a literal of its own so that the verifier sees its characters.
  const InvalidNumber := "\U{E2}\U{161}\U{A0}\U{EF}\U{B8}" + " Invalid number. Please choose from the list."

  /** The whole listing of `groups`, each intent shown by `name`. */
  function ListingOf(groups: seq<(string, seq<string>)>, name: string -> string): string {
    ListingHeader + Sections(groups, 1, name) + ListingFooter
  }

  /** `list_intents()` over `groups`. */
  method RenderListing(groups: seq<(string, seq<string>)>, name: string -> string) returns (output: string)
    ensures output == ListingOf(groups, name)
  {
    output := ListingHeader;
    var body := RenderGroups(groups, name);
    output := output + body;
    output := output + ListingFooter;
  }

  /** The listing numbers its entries consecutively from 1, across the groups and in their order. */
  lemma ListingShows(groups: seq<(string, seq<string>)>, name: string -> string, k: nat)
    requires 1 <= k <= Count(groups)
    ensures Contains(ListingOf(groups, name), EntryLine(k, name(Flatten(groups)[k - 1])))
  {
    var shown := name(Flatten(groups)[k - 1]);
    var b, a := SectionsEntry(groups, 1, name, k - 1, k, shown);
    Enclose(ListingHeader, b, EntryLine(k, shown), a, ListingFooter);
    ContainsMiddle(ListingHeader + b, EntryLine(k, shown), a + ListingFooter);
  }

  /**
   * What `describe_intent(number)` returns when `intents` is the numbered
   * list, `name` the display name and `details` the description and examples
   * of an intent.
   */
  function DescriptionOf(number: int, intents: seq<string>, name: string -> string,
                         details: string -> (string, seq<string>)): string {
    var idx := number - 1;
    if idx < 0 || idx >= |intents| then InvalidNumber
    else Card(name(intents[idx]), details(intents[idx]).0, details(intents[idx]).1)
  }

  /** `describe_intent(number)` over those lists. */
  method RenderDescription(number: int, intents: seq<string>, name: string -> string,
                           details: string -> (string, seq<string>)) returns (output: string)
    ensures output == DescriptionOf(number, intents, name, details)
  {
    var idx := number - 1;
    if idx < 0 || idx >= |intents| {
      return InvalidNumber;
    }
    var intent := intents[idx];
    var friendly := name(intent);
    var (description, examples) := details(intent);
    var body;
    if examples != [] {
      var lines := RenderExamples(examples);
      body := ExamplesHeading + lines;
    } else {
      body := NoExamples;
    }
    output := Heading(friendly, description) + body;
  }

  /** Exactly the positions of `intents`, counted from 1, are described; any other number is refused. */
  lemma DescriptionBounds(number: int, intents: seq<string>, name: string -> string,
                          details: string -> (string, seq<string>))
    ensures DescriptionOf(number, intents, name, details) == InvalidNumber <==> number < 1 || number > |intents|
  {
    if 1 <= number <= |intents| {
      var intent := intents[number - 1];
      var card := Card(name(intent), details(intent).0, details(intent).1);
      CardOpens(name(intent), details(intent).0, details(intent).1);
      assert DescriptionOf(number, intents, name, details) == card;
      assert card[0] != InvalidNumber[0];
    }
  }
}
