/** The index after UpdateShortTerm, and exactly which titles can break it
    (memory/update.go:33-66, 269-276; memory/merge.go:24-33, 43-58, 106-150, 1099-1133). */
module TaskIndexTitles {
  import opened Wrappers
  import opened Text
  import opened MemorySections
  import opened MemoryLines
  import opened MemoryItems
  import opened ShortTerm
  import opened ShortTermRoundTrip
  import opened TaskIndex
  import Sorting

  // ---- where the lines of a title go ----

  /** The lines a key-value section prints, as reading sees them. A title of several lines
      prints several, and one of them may look like a header. */
  function Written(items: seq<KVItem>, kind: Kind): seq<string> {
    CleanLines(Unlines(EntriesLines(Entries(items, kind), kind)))
  }

  /** The lines that titles bring into a section that is not theirs. */
  function Stray(summary: seq<KVItem>, facts: seq<KVItem>, section: string): seq<string> {
    Section([Header(SESSION_SUMMARY)] + Written(summary, Topics), section)
    + Section([Header(TEMPORARY_FACTS)] + Written(facts, Facts), section)
  }

  predicate NoTasks(lines: seq<string>) {
    forall k :: 0 <= k < |lines| ==> ParseTodoLine(lines[k]).None?
  }

  ghost predicate NoCrossed(lines: seq<string>) {
    forall k :: 0 <= k < |lines| ==> !Crossed(lines[k])
  }

  /** No title brings a to-do item into a to-do section, nor a line with crossed brackets into
      the links section. */
  ghost predicate NoStrays(summary: seq<KVItem>, facts: seq<KVItem>) {
    && NoTasks(Stray(summary, facts, TASKS)) && NoTasks(Stray(summary, facts, FOLLOW_UPS))
    && NoCrossed(Stray(summary, facts, RELATED_LINKS))
  }

  /** What stands before a header does not matter behind it. */
  lemma {:induction false} AfterHeader(before: seq<string>, h: string, lines: seq<string>, section: string)
    requires IsHeader(h) && section != ""
    ensures Section(before + [h] + lines, section) == Section(before, section) + Section([h] + lines, section)
    ensures Current(before + [h] + lines) == Current([h] + lines)
  {
    if lines == [] {
      SectionNext(before, h, section);
      SectionNext([], h, section);
      assert before + [h] + [] == before + [h] && [h] + [] == [] + [h];
    } else {
      var n := |lines| - 1;
      AfterHeader(before, h, lines[..n], section);
      SectionNext(before + [h] + lines[..n], lines[n], section);
      SectionNext([h] + lines[..n], lines[n], section);
      SplitLast(lines);
      ConcatThree(before + [h], lines[..n], [lines[n]]);
      ConcatThree([h], lines[..n], [lines[n]]);
    }
  }

  /** One more written block, whatever its lines hold. */
  lemma NextBlock(w: seq<string>, name: string, lines: seq<string>, section: string)
    requires CleanText(name) && section != ""
    ensures Section(CleanLines(Unlines(w + ([Header(name)] + lines + [""]))), section)
         == Section(CleanLines(Unlines(w)), section)
            + Section([Header(name)] + CleanLines(Unlines(lines)), section)
  {
    HeaderIs(name);
    BlockBehind(w, name, lines);
    AfterHeader(CleanLines(Unlines(w)), Header(name), CleanLines(Unlines(lines)), section);
  }

  lemma OwnLines(name: string, read: seq<string>, section: string)
    requires CleanText(name) && Plain(read) && section != ""
    ensures Section([Header(name)] + read, section) == if name == section then read else []
  {
    HeaderIs(name);
    var none: seq<string> := [];
    BlockSection(none, Header(name), read, section);
    assert none + [Header(name)] + read == [Header(name)] + read;
    assert none + read == read;
  }

  // ---- the to-do sections of a body ----

  /** Tasks and links that stay on their lines. */
  predicate TidyLists(c: Content) {
    Distinct(c.tasks) && Distinct(c.followUps) && SingleLinks(ShownLinks(c.links))
  }

  lemma TasksRead(items: seq<TaskItem>)
    requires Distinct(items)
    ensures CleanLines(Unlines(TodoLines(items))) == ReadTasks(ShownTasks(items)) && Plain(ReadTasks(ShownTasks(items)))
  {
    DistinctShown(items);
    TodoLinesShown(items);
    TodoLinesRead(ShownTasks(items));
    CleanLinesOfUnlines(TodoLines(items));
  }

  lemma LinksRead(items: seq<LinkItem>)
    requires SingleLinks(ShownLinks(items))
    ensures CleanLines(Unlines(LinkLines(items))) == ReadLinks(ShownLinks(items)) && Plain(ReadLinks(ShownLinks(items)))
  {
    ShownLinksAreShaped(items);
    LinkLinesShown(items);
    LinkLinesRead(ShownLinks(items));
    CleanLinesOfUnlines(LinkLines(items));
  }

  /** A section's own lines, as reading sees them. */
  function Own(c: Content, section: string): seq<string> {
    if section == TASKS then ReadTasks(ShownTasks(c.tasks))
    else if section == FOLLOW_UPS then ReadTasks(ShownTasks(c.followUps))
    else ReadLinks(ShownLinks(c.links))
  }

  /** A to-do or links section reads as what strayed into it and then its own lines. */
  lemma BodySection(date: string, c: Content, section: string)
    requires SingleLine(date) && TidyLists(c) && section in {TASKS, FOLLOW_UPS, RELATED_LINKS}
    ensures Section(CleanLines(Build(date, c)), section) == Stray(c.summary, c.facts, section) + Own(c, section)
  {
    var w0 := [Title(date), ""];
    var w1 := w0 + KVLines(SESSION_SUMMARY, c.summary, Topics);
    var w2 := w1 + KVLines(TEMPORARY_FACTS, c.facts, Facts);
    var w3 := w2 + TodoBlock(TASKS, c.tasks);
    var w4 := w3 + TodoBlock(FOLLOW_UPS, c.followUps);
    NamesAreClean();
    TitleRead(date);
    CleanLinesOfUnlines(w0);
    PreambleSection([Title(date)], section);
    NextBlock(w0, SESSION_SUMMARY, EntriesLines(Entries(c.summary, Topics), Topics), section);
    NextBlock(w1, TEMPORARY_FACTS, EntriesLines(Entries(c.facts, Facts), Facts), section);
    NextBlock(w2, TASKS, TodoLines(c.tasks), section);
    NextBlock(w3, FOLLOW_UPS, TodoLines(c.followUps), section);
    NextBlock(w4, RELATED_LINKS, LinkLines(c.links), section);
    CleanLinesOfTrimmed(Unlines(BodyLines(date, c)));
    TasksRead(c.tasks);
    TasksRead(c.followUps);
    LinksRead(c.links);
    NamesApart();
    OwnLines(TASKS, ReadTasks(ShownTasks(c.tasks)), section);
    OwnLines(FOLLOW_UPS, ReadTasks(ShownTasks(c.followUps)), section);
    OwnLines(RELATED_LINKS, ReadLinks(ShownLinks(c.links)), section);
    OneOfThree(Section([Header(SESSION_SUMMARY)] + Written(c.summary, Topics), section),
               Section([Header(TEMPORARY_FACTS)] + Written(c.facts, Facts), section),
               ReadTasks(ShownTasks(c.tasks)), ReadTasks(ShownTasks(c.followUps)), ReadLinks(ShownLinks(c.links)),
               section == TASKS, section == FOLLOW_UPS);
  }

  lemma NamesApart()
    ensures TASKS != FOLLOW_UPS && RELATED_LINKS != TASKS && RELATED_LINKS != FOLLOW_UPS
    ensures SESSION_SUMMARY != TASKS && SESSION_SUMMARY != FOLLOW_UPS && SESSION_SUMMARY != RELATED_LINKS
    ensures TEMPORARY_FACTS != TASKS && TEMPORARY_FACTS != FOLLOW_UPS && TEMPORARY_FACTS != RELATED_LINKS
  {
    assert SESSION_SUMMARY[0] == 'S' && RELATED_LINKS[0] == 'R' && FOLLOW_UPS[0] == 'F' && TASKS[0] == 'T';
    assert TEMPORARY_FACTS[0] == 'T' && TEMPORARY_FACTS[1] == 'e' && TASKS[1] == 'a';
  }

  lemma OneOfThree<T>(a: seq<T>, b: seq<T>, x: seq<T>, y: seq<T>, z: seq<T>, first: bool, second: bool)
    requires !(first && second)
    ensures [] + a + b + (if first then x else []) + (if second then y else []) + (if first || second then [] else z)
         == a + b + (if first then x else if second then y else z)
  {
  }

  // ---- reading to-do items behind stray lines ----

  lemma {:induction false} NothingParsed(lines: seq<string>)
    ensures ParseTodo(lines) == [] <==> NoTasks(lines)
  {
    if lines != [] {
      var n := |lines| - 1;
      NothingParsed(lines[..n]);
      SplitLast(lines);
      if ParseTodoLine(lines[n]).Some? {
        TodoHasKey(lines[n]);
      }
    }
  }

  lemma TodoHasKey(line: string)
    requires ParseTodoLine(line).Some?
    ensures KeyOf(ParseTodoLine(line).value.text) != ""
  {
    var rest := line[|TODO_MARK|..];
    TrimIdempotent(rest[Index(rest, "]") + 1..]);
  }

  lemma {:induction false} ParseBehind(a: seq<string>, b: seq<string>)
    requires NoTasks(a)
    ensures ParseTodo(a + b) == ParseTodo(b)
  {
    if b == [] {
      assert a + b == a;
      NothingParsed(a);
    } else {
      var n := |b| - 1;
      assert (a + b)[..|a + b| - 1] == a + b[..n];
      ParseBehind(a, b[..n]);
    }
  }

  lemma {:induction false} AllCount(lines: seq<string>)
    ensures CountTasks(ParseTodo(lines)).total == |ParseTodo(lines)|
  {
    if lines != [] {
      var n := |lines| - 1;
      AllCount(lines[..n]);
      if |ParseTodo(lines)| > |ParseTodo(lines[..n])| {
        CountAppend(ParseTodo(lines[..n]), ParseTodoLine(lines[n]).value);
      }
    }
  }

  lemma ListsAgree(lines: seq<string>, stray: seq<string>, items: seq<TaskItem>)
    requires Distinct(items) && NoTasks(stray) && lines == stray + ReadTasks(ShownTasks(items))
    ensures CountTasks(ParseTodo(lines)) == CountTasks(items)
  {
    ParseBehind(stray, ReadTasks(ShownTasks(items)));
    CountBack(items);
  }

  /** The links section of a body panics exactly when a stray line does. */
  lemma StrayPanicsIff(stray: seq<string>, links: seq<LinkItem>)
    ensures ParseLinks(stray + ReadLinks(links)).Some? <==> NoCrossed(stray)
  {
    var own := ReadLinks(links);
    var all := stray + own;
    LinksPanicIff(all);
    LinksPanicIff(own);
    PrintedLinksRead(links);
    if k :| 0 <= k < |stray| && Crossed(stray[k]) {
      assert Crossed(all[k]);
    }
    assert forall k :: |stray| <= k < |all| ==> all[k] == own[k - |stray|];
    assert forall k :: 0 <= k < |stray| ==> all[k] == stray[k];
  }

  /** Without strays the body can be read and the ratios written beside it agree with it. */
  lemma AgreesWithoutStrays(date: string, c: Content, line: string)
    requires SingleLine(date) && TidyLists(c) && NoStrays(c.summary, c.facts)
    ensures Agrees(IndexOf(c, line), Build(date, c))
  {
    var lines := CleanLines(Build(date, c));
    BodySection(date, c, TASKS);
    BodySection(date, c, FOLLOW_UPS);
    BodySection(date, c, RELATED_LINKS);
    NamesApart();
    ListsAgree(Section(lines, TASKS), Stray(c.summary, c.facts, TASKS), c.tasks);
    ListsAgree(Section(lines, FOLLOW_UPS), Stray(c.summary, c.facts, FOLLOW_UPS), c.followUps);
    StrayPanicsIff(Stray(c.summary, c.facts, RELATED_LINKS), ShownLinks(c.links));
    AgreesIf(Build(date, c), c, line);
  }

  /** Beside empty lists one stray to-do item is one too many, and a stray line with crossed
      brackets keeps the body from being read. */
  lemma DisagreesWithStrays(date: string, c: Content, line: string)
    requires SingleLine(date) && c.tasks == [] && c.followUps == [] && c.links == []
    requires !NoStrays(c.summary, c.facts)
    ensures !Agrees(IndexOf(c, line), Build(date, c))
  {
    BodySection(date, c, TASKS);
    BodySection(date, c, FOLLOW_UPS);
    BodySection(date, c, RELATED_LINKS);
    NamesApart();
    forall section | section in {TASKS, FOLLOW_UPS, RELATED_LINKS}
      ensures Section(CleanLines(Build(date, c)), section) == Stray(c.summary, c.facts, section)
    {
      assert Stray(c.summary, c.facts, section) + [] == Stray(c.summary, c.facts, section);
    }
    var stray := Stray(c.summary, c.facts, RELATED_LINKS);
    StrayPanicsIff(stray, []);
    assert stray + ReadLinks([]) == stray;
    NothingParsed(Stray(c.summary, c.facts, TASKS));
    NothingParsed(Stray(c.summary, c.facts, FOLLOW_UPS));
    AllCount(Stray(c.summary, c.facts, TASKS));
    AllCount(Stray(c.summary, c.facts, FOLLOW_UPS));
    RatioBack(Counts(0, 0));
  }

  // ---- UpdateShortTerm ----

  /** The content UpdateShortTerm writes: the summary and the facts as merged, the tasks merged
      by text, the links kept. */
  function Updated(
    existing: Content, summary: seq<KVItem>, facts: seq<KVItem>, tasks: seq<TaskItem>, followUps: seq<TaskItem>): Content
  {
    Content(summary, facts, Merge(existing.tasks, Normalize(tasks)), Merge(existing.followUps, Normalize(followUps)),
            existing.links)
  }

  predicate SingleTexts(items: seq<TaskItem>) {
    forall k :: 0 <= k < |items| ==> SingleLine(Trim(items[k].text))
  }

  /** What UpdateShortTerm writes over a file it can read keeps the index: the body can be read
      and its ratios are the counts read from it. */
  predicate KeepsIndex(
    date: string, before: string, summary: seq<KVItem>, facts: seq<KVItem>, tasks: seq<TaskItem>,
    followUps: seq<TaskItem>, line: string)
  {
    Read(before).Some? ==>
      var c := Updated(Read(before).value, summary, facts, tasks, followUps);
      Agrees(IndexOf(c, line), Build(date, c))
  }

  /** Main result: after any UpdateShortTerm, on top of any file that can be read, the body can be
      read again and the ratios in the frontmatter are the counts read from it, when the new task
      texts are on one line each and no title brings along a to-do item or a line that panics. */
  lemma UpdateKeepsIndex(
    date: string, before: string, summary: seq<KVItem>, facts: seq<KVItem>, tasks: seq<TaskItem>,
    followUps: seq<TaskItem>, line: string)
    requires SingleLine(date) && SingleTexts(tasks) && SingleTexts(followUps) && NoStrays(summary, facts)
    ensures KeepsIndex(date, before, summary, facts, tasks, followUps, line)
  {
    if Read(before).Some? {
      var existing := Read(before).value;
      ParsedIsOneLine(before, existing);
      NormalizeKeepsLines(tasks);
      NormalizeKeepsLines(followUps);
      MergeIsDistinct(existing.tasks, Normalize(tasks));
      MergeIsDistinct(existing.followUps, Normalize(followUps));
      AgreesWithoutStrays(date, Updated(existing, summary, facts, tasks, followUps), line);
    }
  }

  /** Main result, exactly: titles are safe for every file and all tasks if and only if none of
      them brings a to-do item into a to-do section or a line that panics into the links section. */
  lemma UpdatesKeepIndexIff(date: string, summary: seq<KVItem>, facts: seq<KVItem>, line: string)
    requires SingleLine(date)
    ensures (forall before, tasks, followUps :: SingleTexts(tasks) && SingleTexts(followUps) ==>
               KeepsIndex(date, before, summary, facts, tasks, followUps, line))
            <==> NoStrays(summary, facts)
  {
    if NoStrays(summary, facts) {
      forall before, tasks, followUps | SingleTexts(tasks) && SingleTexts(followUps)
        ensures KeepsIndex(date, before, summary, facts, tasks, followUps, line)
      {
        UpdateKeepsIndex(date, before, summary, facts, tasks, followUps, line);
      }
    } else {
      NothingRead(summary, facts);
      DisagreesWithStrays(date, Content(summary, facts, [], [], []), line);
      assert !KeepsIndex(date, "", summary, facts, [], [], line);
    }
  }

  /** An empty file holds nothing. */
  lemma NothingRead(summary: seq<KVItem>, facts: seq<KVItem>)
    ensures Read("").Some? && Updated(Read("").value, summary, facts, [], []) == Content(summary, facts, [], [], [])
  {
    NoLines();
  }

  lemma SingleWritten(name: string, items: seq<KVItem>, kind: Kind, section: string)
    requires SingleTitles(items) && CleanText(name) && section != "" && section != name
    ensures Section([Header(name)] + Written(items, kind), section) == []
  {
    var es := Entries(items, kind);
    EntriesSingle(items, kind);
    EntriesAreShaped(items, kind);
    forall k | 0 <= k < |es| ensures LooseEntry(es[k]) {
      assert ShapedEntry(es[k], kind);
    }
    EntriesLinesRead(es, kind);
    CleanLinesOfUnlines(EntriesLines(es, kind));
    OwnLines(name, ReadEntries(es, kind), section);
  }

  /** Titles on one line are safe. */
  lemma SingleTitlesDoNotStray(summary: seq<KVItem>, facts: seq<KVItem>)
    requires SingleTitles(summary) && SingleTitles(facts)
    ensures NoStrays(summary, facts)
  {
    NamesAreClean();
    NamesApart();
    SingleWritten(SESSION_SUMMARY, summary, Topics, TASKS);
    SingleWritten(SESSION_SUMMARY, summary, Topics, FOLLOW_UPS);
    SingleWritten(SESSION_SUMMARY, summary, Topics, RELATED_LINKS);
    SingleWritten(TEMPORARY_FACTS, facts, Facts, TASKS);
    SingleWritten(TEMPORARY_FACTS, facts, Facts, FOLLOW_UPS);
    SingleWritten(TEMPORARY_FACTS, facts, Facts, RELATED_LINKS);
  }

  // ---- a title that breaks the index ----

  /** A title of three lines, two of which look like a section of their own. */
  function Smuggling(a: string, it: TaskItem): string {
    a + "\n" + Header(TASKS) + "\n" + ReadTask(it)
  }

  /** The lines its head line breaks into. */
  function Smuggled(a: string, it: TaskItem): seq<string> {
    [HeadLine(1, a, Topics), Header(TASKS), ReadTask(it)]
  }

  lemma ThreeLines(x: string, y: string, z: string)
    ensures Unlines([x, y, z]) == x + "\n" + y + "\n" + z + "\n"
  {
    assert [x, y, z] == [x] + ([y] + [z]);
    UnlinesAppend([x], [y] + [z]);
    UnlinesAppend([y], [z]);
    LineText(x);
    LineText(y);
    LineText(z);
  }

  lemma HeadOf(a: string, rest: string)
    ensures HeadLine(1, a + rest, Topics) == HeadLine(1, a, Topics) + rest
  {
    assert Itoa(1) + TOPIC_HEAD + (a + rest) == Itoa(1) + TOPIC_HEAD + a + rest;
  }

  lemma SmuggledText(a: string, it: TaskItem)
    ensures Unlines([HeadLine(1, Smuggling(a, it), Topics)]) == Unlines(Smuggled(a, it))
  {
    var h, r := Header(TASKS), ReadTask(it);
    var rest := "\n" + h + "\n" + r;
    assert Smuggling(a, it) == a + rest;
    HeadOf(a, rest);
    LineText(HeadLine(1, a + rest, Topics));
    ThreeLines(HeadLine(1, a, Topics), h, r);
    assert HeadLine(1, a, Topics) + rest + "\n" == HeadLine(1, a, Topics) + "\n" + h + "\n" + r + "\n";
  }

  lemma SmuggledCleans(a: string, it: TaskItem)
    requires CleanText(a) && CleanText(it.text)
    ensures Cleans(Smuggled(a, it), Smuggled(a, it))
    ensures !IsHeader(HeadLine(1, a, Topics)) && !IsHeader(ReadTask(it))
  {
    var x, y, z := HeadLine(1, a, Topics), Header(TASKS), ReadTask(it);
    HeadIsNumbered(1, a, Topics);
    NamesAreClean();
    HeaderIs(TASKS);
    TaskIsClean(it);
    CleansOne(x);
    CleansOne(y);
    CleansOne(z);
    CleansConcat([y], [y], [z], [z]);
    CleansConcat([x], [x], [y] + [z], [y] + [z]);
    assert [x] + ([y] + [z]) == Smuggled(a, it);
  }

  lemma EmptyOrdered()
    ensures Ordered([]) == []
  {
    EmptyBuckets(RANKS);
  }

  lemma {:induction false} EmptyBuckets(n: nat)
    ensures Sorting.Buckets(SubRank, [], n) == []
  {
    if n > 0 {
      EmptyBuckets(n - 1);
    }
  }

  lemma SmuggledEntries(title: string)
    requires Trimmed(title) && title != ""
    ensures EntriesLines(Entries([KVItem(title, "")], Topics), Topics) == [HeadLine(1, title, Topics)]
  {
    TrimIdle(title);
    CleanLinesOfLine("");
    TrimIdle("");
    EmptyOrdered();
    assert ShownSubs("", Topics) == [];
    assert [KVItem(title, "")][..0] == [];
    assert [Entry(title, [])][..0] == [];
  }

  lemma SmugglingIsTrimmed(a: string, it: TaskItem)
    requires CleanText(a) && CleanText(it.text)
    ensures Trimmed(Smuggling(a, it)) && Smuggling(a, it) != ""
  {
    var s := Smuggling(a, it);
    TaskIsClean(it);
    assert s[0] == a[0] && s[|s| - 1] == ReadTask(it)[|ReadTask(it)| - 1];
  }

  lemma SmuggledWritten(a: string, it: TaskItem)
    requires CleanText(a) && CleanText(it.text)
    ensures Written([KVItem(Smuggling(a, it), "")], Topics) == Smuggled(a, it)
  {
    SmugglingIsTrimmed(a, it);
    SmuggledEntries(Smuggling(a, it));
    SmuggledText(a, it);
    SmuggledCleans(a, it);
    CleanLinesOfUnlines(Smuggled(a, it));
  }

  lemma BehindOwnHeader(before: seq<string>, name: string, l: string)
    requires CleanText(name) && !IsHeader(l)
    ensures l in Section(before + [Header(name)] + [l], name)
  {
    HeaderIs(name);
    BlockSection(before, Header(name), [l], name);
  }

  lemma Regroup<T>(w: T, x: T, y: T, z: T)
    ensures [w] + [x, y, z] == [w, x] + [y] + [z]
  {
  }

  lemma StrayFromSummary(summary: seq<KVItem>, facts: seq<KVItem>, section: string, l: string)
    requires l in Section([Header(SESSION_SUMMARY)] + Written(summary, Topics), section)
    ensures l in Stray(summary, facts, section)
  {
  }

  lemma SmuggledStrays(a: string, it: TaskItem)
    requires CleanText(a) && CleanText(it.text)
    ensures ReadTask(it) in Stray([KVItem(Smuggling(a, it), "")], [], TASKS)
  {
    var h, x, z := Header(SESSION_SUMMARY), HeadLine(1, a, Topics), ReadTask(it);
    SmuggledWritten(a, it);
    TaskIsClean(it);
    NamesAreClean();
    BehindOwnHeader([h, x], TASKS, z);
    Regroup(h, x, Header(TASKS), z);
    StrayFromSummary([KVItem(Smuggling(a, it), "")], [], TASKS, z);
  }

  /** A title of three lines, two of which look like a section of their own, makes the body
      count a task that the ratio does not. */
  lemma TitleCanBreakIndex(date: string, a: string, it: TaskItem)
    requires SingleLine(date) && CleanText(a) && CleanText(it.text)
    ensures !KeepsIndex(date, "", [KVItem(Smuggling(a, it), "")], [], [], [], "")
  {
    var summary := [KVItem(Smuggling(a, it), "")];
    SmuggledStrays(a, it);
    TaskReads(it);
    NothingRead(summary, []);
    DisagreesWithStrays(date, Content(summary, [], [], [], []), "");
  }
}
