/** Reading a short-term body back (memory/merge.go:24-33, 152-377) and the fixed point of
    printing and reading. */
module ShortTermRoundTrip {
  import opened Wrappers
  import opened Text
  import opened MemorySections
  import opened MemoryLines
  import opened MemoryItems
  import opened ShortTerm
  import Sorting

  /** What ParseShortTermContent returns; None when the source panics. */
  function Read(body: string): Option<Content> {
    var lines := CleanLines(body);
    match ParseLinks(Section(lines, RELATED_LINKS))
    case None => None
    case Some(links) =>
      Some(Content(ParseKV(Section(lines, SESSION_SUMMARY)), ParseKV(Section(lines, TEMPORARY_FACTS)),
                   ParseTodo(Section(lines, TASKS)), ParseTodo(Section(lines, FOLLOW_UPS)), links))
  }

  /** Main result: reading a body panics if and only if its links section has a line whose
      brackets are crossed. */
  lemma ReadingPanicsIff(body: string)
    ensures Read(body).None? <==> exists l :: l in Section(CleanLines(body), RELATED_LINKS) && Crossed(l)
  {
    var lines := Section(CleanLines(body), RELATED_LINKS);
    LinksPanicIff(lines);
    if l :| l in lines && Crossed(l) {
      var k :| 0 <= k < |lines| && lines[k] == l;
      assert Crossed(lines[k]);
    }
  }

  method ParseShortTermContent(body: string) returns (c: Option<Content>)
    ensures c == Read(body)
  {
    var sections := SplitSections(body);
    assert HoldsSections(sections, CleanLines(body));
    forall name ensures Clean(Section(CleanLines(body), name)) == Section(CleanLines(body), name) {
      SectionIsTrimmed(body, name);
    }
    var summary := ParseKVSection(Lookup(sections, SESSION_SUMMARY));
    var facts := ParseKVSection(Lookup(sections, TEMPORARY_FACTS));
    var tasks := ParseTodoSection(Lookup(sections, TASKS));
    var followUps := ParseTodoSection(Lookup(sections, FOLLOW_UPS));
    var links := ParseLinkSection(Lookup(sections, RELATED_LINKS));
    if links.None? {
      return None;
    }
    c := Some(Content(summary, facts, tasks, followUps, links.value));
  }

  // ---- one sub-item ----

  /** A sub-item as parsing any value makes it. */
  predicate ShapedSub(s: SubItem) {
    CleanText(s.key) && ':' !in s.key && CleanText(s.value)
  }

  predicate ShapedSubs(subs: seq<SubItem>) {
    forall k :: 0 <= k < |subs| ==> ShapedSub(subs[k])
  }

  /** One with a key that does not look like a list mark or like bold text. */
  predicate GoodSub(s: SubItem) {
    ShapedSub(s) && !HasPrefix(s.key, "-") && !HasPrefix(s.key, BOLD)
  }

  function TextOf(s: SubItem): string {
    s.key + COLON + s.value
  }

  /** A sub-item line as reading sees it. */
  function ReadSub(s: SubItem): string {
    "- " + TextOf(s)
  }

  lemma TextIsClean(s: SubItem)
    requires ShapedSub(s)
    ensures CleanText(TextOf(s)) && CleanText(ReadSub(s))
  {
    var t := TextOf(s);
    assert t[0] == s.key[0] && t[|t| - 1] == s.value[|s.value| - 1];
  }

  lemma SubLineIs(s: SubItem)
    requires ShapedSub(s)
    ensures SubLine(s) == [INDENT + TextOf(s)]
    ensures CleanLine(INDENT + TextOf(s)) == [ReadSub(s)]
  {
    TrimIdle(s.key);
    TrimIdle(s.value);
    TextIsClean(s);
    TrimUnique("  ", ReadSub(s), "");
    assert "  " + ReadSub(s) + "" == INDENT + TextOf(s);
  }

  lemma DashIsNotNumbered(l: string)
    requires HasPrefix(l, "-")
    ensures ParseNumberedKVLine(l) == None && !IsHeader(l)
  {
    assert l[0] == '-' && HEADER[0] == '#';
    var dot := Index(l, ".");
    assert dot > 0 ==> l[..dot][0] == '-';
  }

  /** The text of a sub-item does not open with bold. */
  lemma TwoChars(s: SubItem)
    requires GoodSub(s)
    ensures !(ReadSub(s)[2] == '*' && ReadSub(s)[3] == '*')
  {
    var t := TextOf(s);
    assert ReadSub(s)[2] == t[0] && ReadSub(s)[3] == t[1];
    assert t[0] == s.key[0];
    if |s.key| >= 2 {
      assert t[1] == s.key[1];
      assert s.key[..2] == [s.key[0], s.key[1]];
    } else {
      assert t[1] == ':';
    }
  }

  lemma SubIsNotBold(s: SubItem)
    requires GoodSub(s)
    ensures ParseKVLine(ReadSub(s)) == None
  {
    var l := ReadSub(s);
    assert HasPrefix(l, KV_MARK) ==> l[2] == KV_MARK[2] && l[3] == KV_MARK[3];
    TwoChars(s);
  }

  /** The line of a sub-item opens no item and reads as its text. */
  lemma SubIsNoItem(s: SubItem)
    requires GoodSub(s)
    ensures ParseNumberedKVLine(ReadSub(s)) == None && ParseKVLine(ReadSub(s)) == None
    ensures HasPrefix(ReadSub(s), "-") && Trim(ReadSub(s)[1..]) == TextOf(s) && !IsHeader(ReadSub(s))
  {
    DashIsNotNumbered(ReadSub(s));
    SubIsNotBold(s);
    TextIsClean(s);
    TrimSpaceBefore(TextOf(s));
    assert ReadSub(s)[1..] == " " + TextOf(s);
  }

  /** Cutting the printed text at its colon gives the sub-item back. */
  lemma SubBack(s: SubItem, defaultKey: string)
    requires GoodSub(s)
    ensures LineSubitem(TextOf(s), defaultKey) == [s]
  {
    var t := TextOf(s);
    assert t[0] == s.key[0];
    assert s.key[..1] == [s.key[0]];
    assert t[0] == '-' ==> "-" <= s.key;
    CutAtChar(s.key, ':', " " + s.value);
    assert t == s.key + ":" + (" " + s.value);
    TrimIdle(s.key);
    TrimSpaceBefore(s.value);
  }

  // ---- the sub-items of an entry ----

  predicate GoodSubs(subs: seq<SubItem>) {
    forall k :: 0 <= k < |subs| ==> GoodSub(subs[k])
  }

  function Texts(subs: seq<SubItem>): seq<string> {
    if subs == [] then [] else Texts(subs[..|subs| - 1]) + [TextOf(subs[|subs| - 1])]
  }

  function ReadSubsOf(subs: seq<SubItem>): seq<string> {
    if subs == [] then [] else ReadSubsOf(subs[..|subs| - 1]) + [ReadSub(subs[|subs| - 1])]
  }

  lemma {:induction false} TextsAreClean(subs: seq<SubItem>)
    requires GoodSubs(subs)
    ensures |Texts(subs)| == |subs|
    ensures forall k :: 0 <= k < |subs| ==> CleanText(Texts(subs)[k])
  {
    if subs != [] {
      TextsAreClean(subs[..|subs| - 1]);
      TextIsClean(subs[|subs| - 1]);
    }
  }

  lemma {:induction false} SubLinesAre(subs: seq<SubItem>)
    requires ShapedSubs(subs)
    ensures Reads(SubLines(subs), ReadSubsOf(subs))
  {
    if subs != [] {
      var n := |subs| - 1;
      SubLinesAre(subs[..n]);
      SubReads(subs[n]);
      ReadsConcat(SubLines(subs[..n]), ReadSubsOf(subs[..n]), SubLine(subs[n]), [ReadSub(subs[n])]);
    }
  }

  lemma SubReads(s: SubItem)
    requires ShapedSub(s)
    ensures Reads(SubLine(s), [ReadSub(s)])
  {
    SubLineIs(s);
    DashIsNotNumbered(ReadSub(s));
    TextIsClean(s);
    CleanSingle(INDENT + TextOf(s));
    assert SingleLine(INDENT);
  }

  lemma SubitemsMore(ls: seq<string>, l: string, subs: seq<SubItem>, s: SubItem, defaultKey: string)
    requires Subitems(ls, defaultKey) == subs && LineSubitem(l, defaultKey) == [s]
    ensures Subitems(ls + [l], defaultKey) == subs + [s]
  {
    SubitemsAppend(ls, l, defaultKey);
  }

  lemma {:induction false} SubitemsBack(subs: seq<SubItem>, defaultKey: string)
    requires GoodSubs(subs)
    ensures Subitems(Texts(subs), defaultKey) == subs
  {
    if subs != [] {
      var n := |subs| - 1;
      SubitemsBack(subs[..n], defaultKey);
      SubBack(subs[n], defaultKey);
      SubitemsMore(Texts(subs[..n]), TextOf(subs[n]), subs[..n], subs[n], defaultKey);
      SplitLast(subs);
    }
  }

  /** The value an entry is read back with. */
  function ValueOf(subs: seq<SubItem>): string {
    Trim(Join(Texts(subs), '\n'))
  }

  /** Reading the value again gives the sub-items. */
  lemma ValueBack(subs: seq<SubItem>, defaultKey: string)
    requires GoodSubs(subs)
    ensures ParseValue(ValueOf(subs), defaultKey) == subs
  {
    var ls := Texts(subs);
    TextsAreClean(subs);
    CleanLinesOfTrimmed(Join(ls, '\n'));
    if subs == [] {
      CleanLinesOfLine("");
    } else {
      SplitJoin(ls, '\n');
      CleanIdle(ls);
      SubitemsBack(subs, defaultKey);
    }
  }

  // ---- the head line of an entry ----

  /** A title that its head line gives back. Topics may hold anything on one line. */
  predicate GoodHead(title: string, kind: Kind) {
    && CleanText(title)
    && (kind.Facts? ==> ':' !in title && !HasPrefix(title, BOLD) && !HasPrefix(ToLower(title), TOPIC))
  }

  lemma NumberedIs(number: nat, rest: string, line: string)
    requires line == Itoa(number) + ". " + rest && CleanText(rest)
    ensures ParseNumberedKVLine(line) == NumberedRest(rest)
  {
    ItoaPlain(number);
    CutAtChar(Itoa(number), '.', " " + rest);
    assert line == Itoa(number) + "." + (" " + rest);
    TrimSpaceBefore(rest);
  }

  lemma NumberedIsClean(number: nat, rest: string, line: string)
    requires line == Itoa(number) + ". " + rest && CleanText(rest)
    ensures CleanText(line) && !IsHeader(line)
  {
    var digits := Itoa(number);
    ItoaPlain(number);
    assert line[0] == digits[0] && line[|line| - 1] == rest[|rest| - 1];
    assert IsDigit(digits[0]) && HEADER[0] == '#';
  }

  const TOPIC_LABEL := "Topic"

  lemma AfterColonIs(title: string)
    requires CleanText(title)
    ensures AfterColon(COLON + title) == title
  {
    var t := COLON + title;
    assert t[0] == ':' && t[|t| - 1] == title[|title| - 1];
    TrimIdle(t);
    TrimSpaceBefore(title);
    assert t[1..] == " " + title;
  }

  lemma TopicLabelIs()
    ensures ToLower(TOPIC_LABEL) == TOPIC && Trimmed(TOPIC_LABEL) && |TOPIC_LABEL| == 5
    ensures '*' !in TOPIC_LABEL
  {
    assert TOPIC_LABEL[0] == 'T' && TOPIC_LABEL[1] == 'o' && TOPIC_LABEL[2] == 'p'
        && TOPIC_LABEL[3] == 'i' && TOPIC_LABEL[4] == 'c';
    assert ToLower(TOPIC_LABEL) == TOPIC;
  }

  lemma TopicRest(title: string)
    requires CleanText(title)
    ensures NumberedRest(BOLD + TOPIC_LABEL + BOLD + COLON + title) == Some((title, ""))
  {
    var rest := TOPIC_LABEL + BOLD + COLON + title;
    var all := BOLD + TOPIC_LABEL + BOLD + COLON + title;
    TopicLabelIs();
    assert all[..2] == BOLD && all[2..] == rest;
    assert rest[..5] == TOPIC_LABEL && rest[5..7] == BOLD && rest[7..] == COLON + title;
    forall k | 0 <= k < 5 ensures !OccursAt(rest, BOLD, k) {
      assert rest[k] == TOPIC_LABEL[k];
      assert rest[k] != '*';
      assert rest[k..k + 2][0] == rest[k];
    }
    IndexIs(rest, BOLD, 5);
    TrimIdle(TOPIC_LABEL);
    AfterColonIs(title);
  }

  lemma FactRest(title: string)
    requires GoodHead(title, Facts)
    ensures NumberedRest(title + ":") == Some((title, ""))
  {
    CutAtChar(title, ':', "");
    assert title + ":" == title + ":" + "";
    NoBold(title);
    NoTopic(title);
    TrimIdle(title);
    TrimIdle("");
  }

  lemma NoBold(title: string)
    requires title != "" && !HasPrefix(title, BOLD)
    ensures !HasPrefix(title + ":", BOLD)
  {
    var rest := title + ":";
    if |title| >= 2 {
      assert rest[..2] == title[..2];
    } else {
      assert rest[1] == ':' && BOLD[1] == '*';
    }
  }

  lemma NoTopic(title: string)
    requires !HasPrefix(ToLower(title), TOPIC)
    ensures !HasPrefix(ToLower(title + ":"), TOPIC)
  {
    var low, rest := ToLower(title), ToLower(title + ":");
    if |title| >= 5 {
      assert rest[..5] == low[..5];
    } else if |title| == 4 {
      assert rest[4] == ':' && TOPIC[4] == 'c';
    }
  }

  /** What stands behind the number. */
  function HeadRest(title: string, kind: Kind): string {
    if kind.Topics? then BOLD + TOPIC_LABEL + BOLD + COLON + title else title + ":"
  }

  lemma HeadIsNumbered(number: nat, title: string, kind: Kind)
    requires CleanText(title)
    ensures HeadLine(number, title, kind) == Itoa(number) + ". " + HeadRest(title, kind)
    ensures CleanText(HeadRest(title, kind))
    ensures CleanText(HeadLine(number, title, kind)) && !IsHeader(HeadLine(number, title, kind))
  {
    match kind
    case Topics =>
      TopicIsClean(title);
      assert TOPIC_HEAD == ". " + (BOLD + TOPIC_LABEL + BOLD + COLON);
      NumberedIsClean(number, HeadRest(title, kind), HeadLine(number, title, kind));
    case Facts =>
      var rest := title + ":";
      assert rest[0] == title[0] && rest[|rest| - 1] == ':';
      NumberedIsClean(number, HeadRest(title, kind), HeadLine(number, title, kind));
  }

  lemma HeadBack(number: nat, title: string, kind: Kind)
    requires GoodHead(title, kind)
    ensures ParseNumberedKVLine(HeadLine(number, title, kind)) == Some((title, ""))
  {
    HeadIsNumbered(number, title, kind);
    NumberedIs(number, HeadRest(title, kind), HeadLine(number, title, kind));
    match kind
    case Topics => TopicRest(title);
    case Facts => FactRest(title);
  }

  lemma TopicIsClean(title: string)
    requires CleanText(title)
    ensures CleanText(BOLD + TOPIC_LABEL + BOLD + COLON + title)
  {
    var rest := BOLD + TOPIC_LABEL + BOLD + COLON + title;
    assert rest[0] == '*' && rest[|rest| - 1] == title[|title| - 1];
    TopicLabelIs();
    assert SingleLine(BOLD) && SingleLine(COLON) && SingleLine(TOPIC_LABEL);
  }

  // ---- reading the entries of a section ----

  predicate GoodEntry(e: Entry, kind: Kind) {
    GoodHead(e.title, kind) && GoodSubs(e.subs) && (kind.Topics? ==> Ordered(e.subs) == e.subs)
  }

  predicate GoodEntries(es: seq<Entry>, kind: Kind) {
    forall k :: 0 <= k < |es| ==> GoodEntry(es[k], kind)
  }

  /** The lines of the entries as reading sees them. */
  function ReadEntries(es: seq<Entry>, kind: Kind): seq<string> {
    if es == [] then []
    else
      var n := |es| - 1;
      ReadEntries(es[..n], kind) + [HeadLine(n + 1, es[n].title, kind)] + ReadSubsOf(es[n].subs)
  }

  /** An entry that stays within its own lines. */
  predicate LooseEntry(e: Entry) {
    CleanText(e.title) && ShapedSubs(e.subs)
  }

  predicate LooseEntries(es: seq<Entry>) {
    forall k :: 0 <= k < |es| ==> LooseEntry(es[k])
  }

  lemma EntryLinesRead(lines: seq<string>, read: seq<string>, number: nat, e: Entry, kind: Kind)
    requires Reads(lines, read) && LooseEntry(e)
    ensures var head := HeadLine(number, e.title, kind);
      Reads(lines + [head] + SubLines(e.subs), read + [head] + ReadSubsOf(e.subs))
  {
    var head := HeadLine(number, e.title, kind);
    HeadIsNumbered(number, e.title, kind);
    SubLinesAre(e.subs);
    ReadsOne(head);
    ReadsConcat(lines, read, [head], [head]);
    ReadsConcat(lines + [head], read + [head], SubLines(e.subs), ReadSubsOf(e.subs));
  }

  lemma {:induction false} EntriesLinesRead(es: seq<Entry>, kind: Kind)
    requires LooseEntries(es)
    ensures Reads(EntriesLines(es, kind), ReadEntries(es, kind))
  {
    if es != [] {
      var n := |es| - 1;
      EntriesLinesRead(es[..n], kind);
      EntryLinesRead(EntriesLines(es[..n], kind), ReadEntries(es[..n], kind), n + 1, es[n], kind);
    }
  }

  lemma ReadOneSub(r: Reading, s: SubItem)
    requires GoodSub(s) && r.title != ""
    ensures ReadLine(r, ReadSub(s)) == r.(lines := r.lines + [TextOf(s)])
  {
    SubIsNoItem(s);
  }

  lemma AssocOne<T>(a: seq<T>, b: seq<T>, x: T)
    ensures a + (b + [x]) == a + b + [x]
  {
  }

  lemma {:induction false} ReadSubLines(pre: seq<string>, r: Reading, subs: seq<SubItem>)
    requires GoodSubs(subs) && ReadLines(pre) == r && r.title != "" && r.lines == []
    ensures ReadLines(pre + ReadSubsOf(subs)) == r.(lines := Texts(subs))
  {
    if subs == [] {
      assert pre + [] == pre;
    } else {
      var n := |subs| - 1;
      ReadSubLines(pre, r, subs[..n]);
      AssocOne(pre, ReadSubsOf(subs[..n]), ReadSub(subs[n]));
      ReadAppend(pre + ReadSubsOf(subs[..n]), ReadSub(subs[n]));
      ReadOneSub(r.(lines := Texts(subs[..n])), subs[n]);
    }
  }

  function ItemOf(e: Entry): KVItem {
    KVItem(e.title, ValueOf(e.subs))
  }

  function ItemsOf(es: seq<Entry>): seq<KVItem> {
    if es == [] then [] else ItemsOf(es[..|es| - 1]) + [ItemOf(es[|es| - 1])]
  }

  lemma ReadEntry(pre: seq<string>, number: nat, e: Entry, kind: Kind)
    requires GoodEntry(e, kind)
    ensures var lines := pre + [HeadLine(number, e.title, kind)] + ReadSubsOf(e.subs);
      ReadLines(lines) == Reading(Flush(ReadLines(pre)).items, e.title, Texts(e.subs))
  {
    var head := HeadLine(number, e.title, kind);
    HeadBack(number, e.title, kind);
    ReadAppend(pre, head);
    ReadSubLines(pre + [head], Reading(Flush(ReadLines(pre)).items, e.title, []), e.subs);
  }

  lemma FlushEntry(items: seq<KVItem>, e: Entry)
    requires CleanText(e.title)
    ensures Flush(Reading(items, e.title, Texts(e.subs))).items == items + [ItemOf(e)]
  {
    TrimIdle(e.title);
  }

  lemma {:induction false} EntriesRead(es: seq<Entry>, kind: Kind)
    requires GoodEntries(es, kind)
    ensures Flush(ReadLines(ReadEntries(es, kind))).items == ItemsOf(es)
  {
    if es == [] {
      TrimIdle("");
    } else {
      var n := |es| - 1;
      EntriesRead(es[..n], kind);
      ReadEntry(ReadEntries(es[..n], kind), n + 1, es[n], kind);
      FlushEntry(ItemsOf(es[..n]), es[n]);
    }
  }

  lemma {:induction false} ItemsOfAt(es: seq<Entry>)
    ensures |ItemsOf(es)| == |es| && forall k :: 0 <= k < |es| ==> ItemsOf(es)[k] == ItemOf(es[k])
  {
    if es != [] {
      ItemsOfAt(es[..|es| - 1]);
    }
  }

  predicate UniqueEntries(es: seq<Entry>) {
    forall i, j :: 0 <= i < j < |es| ==> KeyOf(es[i].title) != KeyOf(es[j].title)
  }

  lemma NoEntryRepeats(es: seq<Entry>)
    requires UniqueEntries(es) && forall k :: 0 <= k < |es| ==> CleanText(es[k].title)
    ensures FirstTitles(ItemsOf(es)) == ItemsOf(es)
  {
    var items := ItemsOf(es);
    ItemsOfAt(es);
    forall k | 0 <= k < |items| ensures KeyOf(items[k].title) != "" {
      TrimIdle(es[k].title);
    }
    forall i, j | 0 <= i < j < |items| ensures KeyOf(items[i].title) != KeyOf(items[j].title) {
      assert KeyOf(es[i].title) != KeyOf(es[j].title);
    }
    NoRepeats(items);
  }

  /** Reading the lines of good entries gives one item per entry. */
  lemma EntriesParse(es: seq<Entry>, kind: Kind)
    requires GoodEntries(es, kind) && UniqueEntries(es)
    ensures ParseKV(ReadEntries(es, kind)) == ItemsOf(es)
  {
    EntriesRead(es, kind);
    assert forall k :: 0 <= k < |es| ==> GoodEntry(es[k], kind);
    NoEntryRepeats(es);
  }

  lemma EntryBack(e: Entry, kind: Kind)
    requires GoodEntry(e, kind)
    ensures ItemEntry(ItemOf(e), kind) == [e]
  {
    TrimIdle(e.title);
    ValueBack(e.subs, DEFAULT_EVENT);
    ValueBack(e.subs, DEFAULT_DETAIL);
  }

  /** The items print as the entries they were read from. */
  lemma {:induction false} EntriesBack(es: seq<Entry>, kind: Kind)
    requires GoodEntries(es, kind)
    ensures Entries(ItemsOf(es), kind) == es
  {
    if es != [] {
      var n := |es| - 1;
      EntriesBack(es[..n], kind);
      EntryBack(es[n], kind);
      EntriesAppend(ItemsOf(es[..n]), ItemOf(es[n]), kind, es[..n], es[n]);
      SplitLast(es);
    }
  }

  lemma EntriesAppend(items: seq<KVItem>, it: KVItem, kind: Kind, es: seq<Entry>, e: Entry)
    requires Entries(items, kind) == es && ItemEntry(it, kind) == [e]
    ensures Entries(items + [it], kind) == es + [e]
  {
    assert (items + [it])[..|items|] == items;
  }

  // ---- to-do items ----

  /** What a task list prints: the tasks with a text, trimmed. */
  function ShownTasks(items: seq<TaskItem>): seq<TaskItem> {
    if items == [] then []
    else
      var n := |items| - 1;
      ShownTasks(items[..n]) + ShownTask(items[n])
  }

  function ShownTask(it: TaskItem): seq<TaskItem> {
    if Trim(it.text) == "" then [] else [TaskItem(Trim(it.text), it.done)]
  }

  function ReadTask(it: TaskItem): string {
    (if it.done then TODO_DONE else TODO_OPEN) + it.text
  }

  function ReadTasks(items: seq<TaskItem>): seq<string> {
    if items == [] then [] else ReadTasks(items[..|items| - 1]) + [ReadTask(items[|items| - 1])]
  }

  predicate GoodTasks(items: seq<TaskItem>) {
    && (forall k :: 0 <= k < |items| ==> CleanText(items[k].text))
    && (forall i, j :: 0 <= i < j < |items| ==> KeyOf(items[i].text) != KeyOf(items[j].text))
  }

  lemma TodoLineBack(status: string, text: string)
    requires (status == "x" || status == " ") && CleanText(text)
    ensures ParseTodoLine(TODO_MARK + (status + "]" + (" " + text))) == Some(TaskItem(text, status == "x"))
  {
    var rest := status + "]" + (" " + text);
    assert (TODO_MARK + rest)[|TODO_MARK|..] == rest;
    CutAtChar(status, ']', " " + text);
    TrimSpaceBefore(text);
    StatusBack(status);
  }

  lemma TaskReads(it: TaskItem)
    requires CleanText(it.text)
    ensures TodoLine(it) == [ReadTask(it)] && Reads([ReadTask(it)], [ReadTask(it)])
    ensures ParseTodoLine(ReadTask(it)) == Some(it)
  {
    var status := if it.done then "x" else " ";
    TrimIdle(it.text);
    TaskIsClean(it);
    ReadsOne(ReadTask(it));
    TodoLineBack(status, it.text);
    TaskSpelled(it);
  }

  lemma TaskSpelled(it: TaskItem)
    ensures ReadTask(it) == TODO_MARK + ((if it.done then "x" else " ") + "]" + (" " + it.text))
  {
    if it.done {
      assert TODO_DONE == TODO_MARK + "x" + "]" + " ";
    } else {
      assert TODO_OPEN == TODO_MARK + " " + "]" + " ";
    }
  }

  lemma TaskIsClean(it: TaskItem)
    requires CleanText(it.text)
    ensures CleanText(ReadTask(it)) && !IsHeader(ReadTask(it))
  {
    var l := ReadTask(it);
    assert l[0] == '-' && l[|l| - 1] == it.text[|it.text| - 1] && HEADER[0] == '#';
    assert SingleLine(TODO_DONE) && SingleLine(TODO_OPEN);
  }

  lemma StatusBack(s: string)
    requires s == "x" || s == " "
    ensures ToLower(Trim(s)) == "x" <==> s == "x"
  {
    if s == "x" {
      TrimIdle(s);
      assert ToLower(s) == "x";
    } else {
      BlankIff(s);
    }
  }

  lemma {:induction false} TodoLinesRead(items: seq<TaskItem>)
    requires forall k :: 0 <= k < |items| ==> CleanText(items[k].text)
    ensures Reads(TodoLines(items), ReadTasks(items))
  {
    if items != [] {
      var n := |items| - 1;
      TodoLinesRead(items[..n]);
      TaskReads(items[n]);
      ReadsConcat(TodoLines(items[..n]), ReadTasks(items[..n]), TodoLine(items[n]), [ReadTask(items[n])]);
    }
  }

  lemma {:induction false} TodoBack(items: seq<TaskItem>)
    requires GoodTasks(items)
    ensures ParseTodo(ReadTasks(items)) == items
  {
    if items != [] {
      var n := |items| - 1;
      TodoBack(items[..n]);
      TaskReads(items[n]);
      TrimIdle(items[n].text);
      assert KeyOf(items[n].text) != "" && !HasText(items[..n], KeyOf(items[n].text));
      ParseTodoAppend(ReadTasks(items[..n]), ReadTask(items[n]), items[..n], items[n]);
      SplitLast(items);
    }
  }

  lemma ParseTodoAppend(lines: seq<string>, l: string, items: seq<TaskItem>, it: TaskItem)
    requires ParseTodo(lines) == items && ParseTodoLine(l) == Some(it)
    requires KeyOf(it.text) != "" && !HasText(items, KeyOf(it.text))
    ensures ParseTodo(lines + [l]) == items + [it]
  {
    assert (lines + [l])[..|lines|] == lines;
  }

  /** Only the shown tasks print, and they print as themselves. */
  lemma {:induction false} TodoLinesShown(items: seq<TaskItem>)
    ensures TodoLines(ShownTasks(items)) == TodoLines(items)
  {
    if items != [] {
      var n := |items| - 1;
      TodoLinesShown(items[..n]);
      TrimIdempotent(items[n].text);
      if Trim(items[n].text) == "" {
        assert ShownTasks(items[..n]) + [] == ShownTasks(items[..n]);
        assert TodoLines(items[..n]) + [] == TodoLines(items[..n]);
      } else {
        TodoLinesAppend(ShownTasks(items[..n]), TaskItem(Trim(items[n].text), items[n].done));
      }
    }
  }

  lemma TodoLinesAppend(items: seq<TaskItem>, it: TaskItem)
    ensures TodoLines(items + [it]) == TodoLines(items) + TodoLine(it)
  {
    assert (items + [it])[..|items|] == items;
  }

  // ---- links ----

  function ShownLinks(items: seq<LinkItem>): seq<LinkItem> {
    if items == [] then []
    else
      var n := |items| - 1;
      ShownLinks(items[..n]) + ShownLink(items[n])
  }

  function ShownLink(it: LinkItem): seq<LinkItem> {
    if Trim(it.target) == "" then [] else [LinkItem(LinkText(it), Trim(it.target))]
  }

  function ReadLink(it: LinkItem): string {
    LINK_OPEN + it.text + LINK_MID + it.target + LINK_CLOSE
  }

  function ReadLinks(items: seq<LinkItem>): seq<string> {
    if items == [] then [] else ReadLinks(items[..|items| - 1]) + [ReadLink(items[|items| - 1])]
  }

  predicate GoodLink(it: LinkItem) {
    CleanText(it.text) && CleanText(it.target) && Index(it.text, LINK_MID) < 0
  }

  predicate GoodLinks(items: seq<LinkItem>) {
    && (forall k :: 0 <= k < |items| ==> GoodLink(items[k]))
    && (forall i, j :: 0 <= i < j < |items| ==> items[i].target != items[j].target)
  }

  /** The mark of a link's middle is two characters. */
  lemma MidPair(s: string, k: nat)
    ensures OccursAt(s, LINK_MID, k) <==> k + 1 < |s| && s[k] == ']' && s[k + 1] == '('
  {
    if k + 1 < |s| {
      assert s[k..k + 2] == [s[k], s[k + 1]];
    }
  }

  lemma NoEarlierMid(text: string, target: string, k: nat)
    requires Index(text, LINK_MID) < 0 && k < 3 + |text|
    ensures !OccursAt(LINK_OPEN + text + ("](" + target), LINK_MID, k)
  {
    var s := LINK_OPEN + text + ("](" + target);
    MidPair(s, k);
    if k < 3 {
      assert s[k] == LINK_OPEN[k];
    } else if k + 1 < 3 + |text| {
      assert s[k] == text[k - 3] && s[k + 1] == text[k - 2];
      MidPair(text, k - 3);
      assert !OccursAt(text, LINK_MID, k - 3);
    } else {
      assert s[k + 1] == ']';
    }
  }

  lemma LinkMidIs(it: LinkItem)
    requires GoodLink(it)
    ensures Index(ReadLink(it), LINK_MID) == 3 + |it.text|
  {
    var n, rest := |it.text|, it.target + LINK_CLOSE;
    var s := LINK_OPEN + it.text + ("](" + rest);
    assert ReadLink(it) == s;
    assert s[3 + n..5 + n] == LINK_MID;
    forall k | 0 <= k < 3 + n ensures !OccursAt(s, LINK_MID, k) {
      NoEarlierMid(it.text, rest, k);
    }
    IndexIs(s, LINK_MID, 3 + n);
  }

  lemma LinkEndIs(l: string)
    requires l != "" && l[|l| - 1] == ')'
    ensures LastIndex(l, ")") == |l| - 1
  {
    assert OccursAt(l, ")", |l| - 1);
  }

  /** Where the parts of a printed link stand. */
  lemma LinkParts(it: LinkItem)
    ensures var l, n := ReadLink(it), |it.text|;
      && |l| == n + |it.target| + 6 && l[0] == '-' && l[|l| - 1] == ')' && Index(l, "[") == 2
      && l[3..3 + n] == it.text && l[5 + n..|l| - 1] == it.target
  {
    var l, n := ReadLink(it), |it.text|;
    assert l[..2] == "- " && l[2] == '[';
    IndexOfChar(l, '[', 2);
    assert l == (LINK_OPEN + it.text + LINK_MID) + (it.target + LINK_CLOSE);
  }

  lemma LinkBack(it: LinkItem)
    requires GoodLink(it)
    ensures ParseLinkLine(ReadLink(it)) == Link(it)
  {
    LinkParts(it);
    LinkMidIs(it);
    LinkEndIs(ReadLink(it));
    TrimIdle(it.text);
    TrimIdle(it.target);
  }

  /** A printed link opens with its brackets the right way round. */
  lemma PrintedIsNotCrossed(it: LinkItem)
    ensures !Crossed(ReadLink(it))
  {
    var l := ReadLink(it);
    assert l[..2] == "- " && l[2] == '[';
    forall m | 0 <= m <= |l| - 2 ensures !CrossedAt(l, m) {
      assert m > 2 ==> l[..m][2] == '[';
      assert m <= 2 ==> l[m..m + 2][0] != ']';
    }
  }

  lemma {:induction false} PrintedLinksRead(items: seq<LinkItem>)
    ensures ParseLinks(ReadLinks(items)).Some?
  {
    if items != [] {
      PrintedLinksRead(items[..|items| - 1]);
      PrintedIsNotCrossed(items[|items| - 1]);
      LinkLinePanicsIff(ReadLink(items[|items| - 1]));
      assert ReadLinks(items)[..|ReadLinks(items)| - 1] == ReadLinks(items[..|items| - 1]);
    }
  }

  lemma LinkReads(it: LinkItem)
    requires CleanText(it.text) && CleanText(it.target)
    ensures LinkLine(it) == [ReadLink(it)] && Reads([ReadLink(it)], [ReadLink(it)])
  {
    TrimIdle(it.text);
    TrimIdle(it.target);
    var l := ReadLink(it);
    assert l[0] == '-' && l[|l| - 1] == ')' && HEADER[0] == '#';
    assert SingleLine(LINK_OPEN) && SingleLine(LINK_MID) && SingleLine(LINK_CLOSE);
    ReadsOne(l);
  }

  lemma {:induction false} LinkLinesRead(items: seq<LinkItem>)
    requires forall k :: 0 <= k < |items| ==> CleanText(items[k].text) && CleanText(items[k].target)
    ensures Reads(LinkLines(items), ReadLinks(items))
  {
    if items != [] {
      var n := |items| - 1;
      LinkLinesRead(items[..n]);
      LinkReads(items[n]);
      ReadsConcat(LinkLines(items[..n]), ReadLinks(items[..n]), LinkLine(items[n]), [ReadLink(items[n])]);
    }
  }

  lemma {:induction false} LinksBack(items: seq<LinkItem>)
    requires GoodLinks(items)
    ensures ParseLinks(ReadLinks(items)) == Some(items)
  {
    if items != [] {
      var n := |items| - 1;
      LinksBack(items[..n]);
      LinkBack(items[n]);
      TrimIdle(items[n].target);
      forall k | 0 <= k < n ensures Trim(items[..n][k].target) != items[n].target {
        TrimIdle(items[k].target);
      }
      ParseLinksAppend(ReadLinks(items[..n]), ReadLink(items[n]), items[..n], items[n]);
      SplitLast(items);
    }
  }

  lemma ParseLinksAppend(lines: seq<string>, l: string, items: seq<LinkItem>, it: LinkItem)
    requires ParseLinks(lines) == Some(items) && ParseLinkLine(l) == Link(it)
    requires Trim(it.target) != "" && !HasTarget(items, Trim(it.target))
    ensures ParseLinks(lines + [l]) == Some(items + [it])
  {
    assert (lines + [l])[..|lines|] == lines;
  }

  lemma {:induction false} LinkLinesShown(items: seq<LinkItem>)
    ensures LinkLines(ShownLinks(items)) == LinkLines(items)
  {
    if items != [] {
      var n := |items| - 1;
      LinkLinesShown(items[..n]);
      if Trim(items[n].target) == "" {
        assert ShownLinks(items[..n]) + [] == ShownLinks(items[..n]);
        assert LinkLines(items[..n]) + [] == LinkLines(items[..n]);
      } else {
        LinkLinesAppend(ShownLinks(items[..n]), LinkItem(LinkText(items[n]), Trim(items[n].target)));
        LinkLineShown(items[n]);
      }
    }
  }

  lemma LinkLineShown(it: LinkItem)
    requires Trim(it.target) != ""
    ensures LinkLine(LinkItem(LinkText(it), Trim(it.target))) == LinkLine(it)
  {
    TrimIdempotent(it.text);
    TrimIdempotent(it.target);
  }

  lemma LinkLinesAppend(items: seq<LinkItem>, it: LinkItem)
    ensures LinkLines(items + [it]) == LinkLines(items) + LinkLine(it)
  {
    assert (items + [it])[..|items|] == items;
  }

  // ---- the whole document ----

  /** What the five sections print, ready to read. */
  datatype Shown = Shown(
    summary: seq<Entry>, facts: seq<Entry>, tasks: seq<TaskItem>, followUps: seq<TaskItem>, links: seq<LinkItem>)

  function Show(c: Content): Shown {
    Shown(Entries(c.summary, Topics), Entries(c.facts, Facts), ShownTasks(c.tasks), ShownTasks(c.followUps),
          ShownLinks(c.links))
  }

  predicate Good(s: Shown) {
    && GoodEntries(s.summary, Topics) && UniqueEntries(s.summary)
    && GoodEntries(s.facts, Facts) && UniqueEntries(s.facts)
    && GoodTasks(s.tasks) && GoodTasks(s.followUps) && GoodLinks(s.links)
  }

  /** Everything shown stays on its own lines. */
  predicate Loose(s: Shown) {
    && LooseEntries(s.summary) && LooseEntries(s.facts)
    && (forall k :: 0 <= k < |s.tasks| ==> CleanText(s.tasks[k].text))
    && (forall k :: 0 <= k < |s.followUps| ==> CleanText(s.followUps[k].text))
    && (forall k :: 0 <= k < |s.links| ==> CleanText(s.links[k].text) && CleanText(s.links[k].target))
  }

  lemma GoodIsLoose(s: Shown)
    requires Good(s)
    ensures Loose(s)
  {
    forall k | 0 <= k < |s.summary| ensures LooseEntry(s.summary[k]) {
      assert GoodEntry(s.summary[k], Topics);
    }
    forall k | 0 <= k < |s.facts| ensures LooseEntry(s.facts[k]) {
      assert GoodEntry(s.facts[k], Facts);
    }
  }

  function BlocksOf(s: Shown): seq<Block> {
    [Block(SESSION_SUMMARY, ReadEntries(s.summary, Topics)), Block(TEMPORARY_FACTS, ReadEntries(s.facts, Facts)),
     Block(TASKS, ReadTasks(s.tasks)), Block(FOLLOW_UPS, ReadTasks(s.followUps)),
     Block(RELATED_LINKS, ReadLinks(s.links))]
  }

  /** The content the document is read back as. */
  function ContentOf(s: Shown): Content {
    Content(ItemsOf(s.summary), ItemsOf(s.facts), s.tasks, s.followUps, s.links)
  }

  lemma NamesAreClean()
    ensures CleanText(SESSION_SUMMARY) && CleanText(TEMPORARY_FACTS) && CleanText(TASKS)
         && CleanText(FOLLOW_UPS) && CleanText(RELATED_LINKS)
  {
  }

  lemma NamesDiffer(s: Shown)
    ensures DistinctNames(BlocksOf(s))
  {
    assert SESSION_SUMMARY[0] == 'S' && TEMPORARY_FACTS[0] == 'T' && FOLLOW_UPS[0] == 'F' && RELATED_LINKS[0] == 'R';
    assert |TASKS| < |TEMPORARY_FACTS| && TASKS[0] == 'T';
  }

  lemma TitleRead(date: string)
    requires SingleLine(date)
    ensures Cleans([Title(date), ""], [Title(date)]) && !IsHeader(Title(date))
  {
    var t := Title(date);
    assert t[0] == '#' && t[1] == ' ' && HEADER[1] == '#' && t[|t| - 1] == 'y';
    assert SingleLine("# ") && SingleLine(" Short-Term Memory");
    CleansOne(t);
    CleansNothing();
    CleansConcat([t], [t], [""], []);
    assert [t] + [""] == [t, ""] && [t] + [] == [t];
  }

  /** The body's lines as reading sees them. */
  lemma BodyRead(date: string, c: Content)
    requires SingleLine(date) && Loose(Show(c))
    ensures CleanLines(Build(date, c)) == [Title(date)] + Seen(BlocksOf(Show(c)))
  {
    var s, t := Show(c), Title(date);
    var w0 := [t, ""];
    TitleRead(date);
    NamesAreClean();
    EntriesLinesRead(s.summary, Topics);
    EntriesLinesRead(s.facts, Facts);
    TodoLinesRead(s.tasks);
    TodoLinesRead(s.followUps);
    TodoLinesShown(c.tasks);
    TodoLinesShown(c.followUps);
    LinkLinesRead(s.links);
    LinkLinesShown(c.links);
    BlockRead(w0, [t], SESSION_SUMMARY, EntriesLines(s.summary, Topics), ReadEntries(s.summary, Topics));
    var w1 := w0 + KVLines(SESSION_SUMMARY, c.summary, Topics);
    var s1 := [t] + [Header(SESSION_SUMMARY)] + ReadEntries(s.summary, Topics);
    BlockRead(w1, s1, TEMPORARY_FACTS, EntriesLines(s.facts, Facts), ReadEntries(s.facts, Facts));
    var w2 := w1 + KVLines(TEMPORARY_FACTS, c.facts, Facts);
    var s2 := s1 + [Header(TEMPORARY_FACTS)] + ReadEntries(s.facts, Facts);
    BlockRead(w2, s2, TASKS, TodoLines(c.tasks), ReadTasks(s.tasks));
    var w3 := w2 + TodoBlock(TASKS, c.tasks);
    var s3 := s2 + [Header(TASKS)] + ReadTasks(s.tasks);
    BlockRead(w3, s3, FOLLOW_UPS, TodoLines(c.followUps), ReadTasks(s.followUps));
    var w4 := w3 + TodoBlock(FOLLOW_UPS, c.followUps);
    var s4 := s3 + [Header(FOLLOW_UPS)] + ReadTasks(s.followUps);
    BlockRead(w4, s4, RELATED_LINKS, LinkLines(c.links), ReadLinks(s.links));
    var w5 := w4 + LinkBlock(RELATED_LINKS, c.links);
    assert w5 == BodyLines(date, c);
    CleanLinesOfUnlines(w5);
    CleanLinesOfTrimmed(Unlines(w5));
    SeenFive(t, s);
  }

  lemma SeenFive(t: string, s: Shown)
    ensures [t] + [Header(SESSION_SUMMARY)] + ReadEntries(s.summary, Topics)
            + [Header(TEMPORARY_FACTS)] + ReadEntries(s.facts, Facts)
            + [Header(TASKS)] + ReadTasks(s.tasks) + [Header(FOLLOW_UPS)] + ReadTasks(s.followUps)
            + [Header(RELATED_LINKS)] + ReadLinks(s.links)
         == [t] + Seen(BlocksOf(s))
  {
    var bs := BlocksOf(s);
    var p1 := [t] + [Header(SESSION_SUMMARY)] + ReadEntries(s.summary, Topics);
    var p2 := p1 + [Header(TEMPORARY_FACTS)] + ReadEntries(s.facts, Facts);
    var p3 := p2 + [Header(TASKS)] + ReadTasks(s.tasks);
    var p4 := p3 + [Header(FOLLOW_UPS)] + ReadTasks(s.followUps);
    assert bs[..0] == [] && [t] + [] == [t];
    SeenNext(t, bs, 0, [t]);
    SeenNext(t, bs, 1, p1);
    SeenNext(t, bs, 2, p2);
    SeenNext(t, bs, 3, p3);
    SeenNext(t, bs, 4, p4);
    assert bs[..5] == bs;
  }

  lemma SeenNext(t: string, blocks: seq<Block>, n: nat, seen: seq<string>)
    requires n < |blocks| && seen == [t] + Seen(blocks[..n])
    ensures seen + [Header(blocks[n].name)] + blocks[n].lines == [t] + Seen(blocks[..n + 1])
  {
    assert blocks[..n + 1][..n] == blocks[..n];
    AssocBlock([t], Seen(blocks[..n]), Header(blocks[n].name), blocks[n].lines);
  }

  lemma GoodBlocksOf(s: Shown)
    requires Loose(s)
    ensures GoodBlocks(BlocksOf(s))
  {
    var bs := BlocksOf(s);
    forall k | 0 <= k < |bs| ensures CleanText(bs[k].name) && Plain(bs[k].lines) {
      NamesAreClean();
      if k == 0 {
        EntriesLinesRead(s.summary, Topics);
      } else if k == 1 {
        EntriesLinesRead(s.facts, Facts);
      } else if k == 2 {
        TodoLinesRead(s.tasks);
      } else if k == 3 {
        TodoLinesRead(s.followUps);
      } else {
        LinkLinesRead(s.links);
      }
    }
  }

  lemma SectionsBack(date: string, c: Content)
    requires SingleLine(date) && Loose(Show(c))
    ensures var lines, s := CleanLines(Build(date, c)), Show(c);
      && Section(lines, SESSION_SUMMARY) == ReadEntries(s.summary, Topics)
      && Section(lines, TEMPORARY_FACTS) == ReadEntries(s.facts, Facts)
      && Section(lines, TASKS) == ReadTasks(s.tasks)
      && Section(lines, FOLLOW_UPS) == ReadTasks(s.followUps)
      && Section(lines, RELATED_LINKS) == ReadLinks(s.links)
  {
    var s := Show(c);
    BodyRead(date, c);
    TitleRead(date);
    GoodBlocksOf(s);
    NamesDiffer(s);
    NamesAreClean();
    forall i | 0 <= i < 5 ensures Section([Title(date)] + Seen(BlocksOf(s)), BlocksOf(s)[i].name) == BlocksOf(s)[i].lines {
      SeenSection([Title(date)], BlocksOf(s), BlocksOf(s)[i].name);
      GatherOne(BlocksOf(s), i);
    }
    assert BlocksOf(s)[0].name == SESSION_SUMMARY && BlocksOf(s)[1].name == TEMPORARY_FACTS
        && BlocksOf(s)[2].name == TASKS && BlocksOf(s)[3].name == FOLLOW_UPS && BlocksOf(s)[4].name == RELATED_LINKS;
  }

  /** Reading the printed body gives exactly what was shown. */
  lemma ParseOfBuild(date: string, c: Content)
    requires SingleLine(date) && Good(Show(c))
    ensures Read(Build(date, c)) == Some(ContentOf(Show(c)))
  {
    var s := Show(c);
    GoodIsLoose(s);
    SectionsBack(date, c);
    EntriesParse(s.summary, Topics);
    EntriesParse(s.facts, Facts);
    TodoBack(s.tasks);
    TodoBack(s.followUps);
    LinksBack(s.links);
  }

  lemma {:induction false} ShownTasksIdle(items: seq<TaskItem>)
    requires forall k :: 0 <= k < |items| ==> CleanText(items[k].text)
    ensures ShownTasks(items) == items
  {
    if items != [] {
      ShownTasksIdle(items[..|items| - 1]);
      TrimIdle(items[|items| - 1].text);
      SplitLast(items);
    }
  }

  lemma {:induction false} ShownLinksIdle(items: seq<LinkItem>)
    requires forall k :: 0 <= k < |items| ==> GoodLink(items[k])
    ensures ShownLinks(items) == items
  {
    if items != [] {
      ShownLinksIdle(items[..|items| - 1]);
      TrimIdle(items[|items| - 1].text);
      TrimIdle(items[|items| - 1].target);
      SplitLast(items);
    }
  }

  /** What is read back prints the same. */
  lemma ShowBack(s: Shown)
    requires Good(s)
    ensures Show(ContentOf(s)) == s
  {
    EntriesBack(s.summary, Topics);
    EntriesBack(s.facts, Facts);
    ShownTasksIdle(s.tasks);
    ShownTasksIdle(s.followUps);
    ShownLinksIdle(s.links);
  }

  lemma SameShownSameBody(date: string, a: Content, b: Content)
    requires Show(a) == Show(b)
    ensures Build(date, a) == Build(date, b)
  {
    TodoLinesShown(a.tasks);
    TodoLinesShown(b.tasks);
    TodoLinesShown(a.followUps);
    TodoLinesShown(b.followUps);
    LinkLinesShown(a.links);
    LinkLinesShown(b.links);
  }

  lemma GoodIsFixed(date: string, c: Content)
    requires SingleLine(date) && Good(Show(c))
    ensures Read(Build(date, c)).Some? && Build(date, Read(Build(date, c)).value) == Build(date, c)
  {
    ParseOfBuild(date, c);
    ShowBack(Show(c));
    SameShownSameBody(date, ContentOf(Show(c)), c);
  }

  // ---- which contents are good ----

  lemma SliceIsSingle(l: string, i: nat, j: nat)
    requires SingleLine(l) && i <= j <= |l|
    ensures SingleLine(l[i..j]) && SingleLine(Trim(l[i..j])) && Trimmed(Trim(l[i..j]))
  {
    TrimOfSingleLine(l[i..j]);
    var a, b := TrimParts(l[i..j]);
  }

  lemma TrimKeepsOut(s: string, c: char)
    requires c !in s
    ensures c !in Trim(s)
  {
    var i, j := TrimParts(s);
  }

  lemma SplitIsShaped(l: string, defaultKey: string)
    requires SingleLine(l) && Trimmed(l) && CleanText(defaultKey) && ':' !in defaultKey
    ensures var (key, value) := SplitSubitem(l);
      value != "" ==> ShapedSub(SubItem(if key == "" then defaultKey else key, value))
  {
    var i := Index(l, ":");
    if i < 0 {
      TrimIdle(l);
    } else {
      SliceIsSingle(l, 0, i);
      SliceIsSingle(l, i + 1, |l|);
      assert l[0..i] == l[..i] && l[i + 1..|l|] == l[i + 1..];
      forall k | 0 <= k < i ensures l[..i][k] != ':' {
        assert !OccursAt(l, ":", k);
      }
      TrimKeepsOut(l[..i], ':');
    }
  }

  lemma LineIsShaped(line: string, defaultKey: string)
    requires CleanText(line) && CleanText(defaultKey) && ':' !in defaultKey
    ensures ShapedSubs(LineSubitem(line, defaultKey))
  {
    if HasPrefix(line, "-") {
      SliceIsSingle(line, 1, |line|);
      assert line[1..|line|] == line[1..];
      SplitIsShaped(Trim(line[1..]), defaultKey);
    } else {
      SplitIsShaped(line, defaultKey);
    }
  }

  lemma {:induction false} SubitemsAreShaped(lines: seq<string>, defaultKey: string)
    requires forall k :: 0 <= k < |lines| ==> CleanText(lines[k])
    requires CleanText(defaultKey) && ':' !in defaultKey
    ensures ShapedSubs(Subitems(lines, defaultKey))
  {
    if lines != [] {
      SubitemsAreShaped(lines[..|lines| - 1], defaultKey);
      LineIsShaped(lines[|lines| - 1], defaultKey);
    }
  }

  lemma DefaultsAreClean()
    ensures CleanText(DEFAULT_EVENT) && ':' !in DEFAULT_EVENT
    ensures CleanText(DEFAULT_DETAIL) && ':' !in DEFAULT_DETAIL
  {
  }

  lemma {:induction false} BucketShaped(subs: seq<SubItem>, r: nat)
    requires ShapedSubs(subs)
    ensures ShapedSubs(Sorting.Bucket(SubRank, subs, r))
  {
    if subs != [] {
      BucketShaped(subs[..|subs| - 1], r);
    }
  }

  lemma {:induction false} BucketsShaped(subs: seq<SubItem>, n: nat)
    requires ShapedSubs(subs)
    ensures ShapedSubs(Sorting.Buckets(SubRank, subs, n))
  {
    if n > 0 {
      BucketsShaped(subs, n - 1);
      BucketShaped(subs, n - 1);
    }
  }

  lemma SubsAreShaped(value: string, kind: Kind)
    ensures ShapedSubs(ShownSubs(value, kind))
    ensures kind.Topics? ==> Ordered(ShownSubs(value, kind)) == ShownSubs(value, kind)
  {
    var lines := CleanLines(value);
    CleanShape(Split(value, '\n'));
    DefaultsAreClean();
    match kind
    case Topics =>
      SubitemsAreShaped(lines, DEFAULT_EVENT);
      BucketsShaped(ParseValue(value, DEFAULT_EVENT), RANKS);
      OrderedTwice(ParseValue(value, DEFAULT_EVENT));
    case Facts =>
      SubitemsAreShaped(lines, DEFAULT_DETAIL);
  }

  predicate ShapedEntry(e: Entry, kind: Kind) {
    && Trimmed(e.title) && e.title != "" && ShapedSubs(e.subs)
    && (kind.Topics? ==> Ordered(e.subs) == e.subs)
  }

  lemma {:induction false} EntriesAreShaped(items: seq<KVItem>, kind: Kind)
    ensures forall k :: 0 <= k < |Entries(items, kind)| ==> ShapedEntry(Entries(items, kind)[k], kind)
  {
    if items != [] {
      var n := |items| - 1;
      EntriesAreShaped(items[..n], kind);
      EntryIsShaped(items[n], kind);
    }
  }

  lemma EntryIsShaped(it: KVItem, kind: Kind)
    ensures forall e :: e in ItemEntry(it, kind) ==> ShapedEntry(e, kind)
  {
    var i, j := TrimParts(it.title);
    SubsAreShaped(it.value, kind);
    assert Trimmed(DEFAULT_TITLE);
  }

  /** Titles on one line; fact titles without a colon that do not open like a bold or topic
      title; sub-item keys that open neither like a list mark nor like bold text. */
  predicate PlainEntry(e: Entry, kind: Kind) {
    && SingleLine(e.title)
    && (kind.Facts? ==> ':' !in e.title && !HasPrefix(e.title, BOLD) && !HasPrefix(ToLower(e.title), TOPIC))
    && forall k :: 0 <= k < |e.subs| ==> !HasPrefix(e.subs[k].key, "-") && !HasPrefix(e.subs[k].key, BOLD)
  }

  predicate PlainItems(items: seq<KVItem>, kind: Kind) {
    && (forall k :: 0 <= k < |Entries(items, kind)| ==> PlainEntry(Entries(items, kind)[k], kind))
    && UniqueEntries(Entries(items, kind))
  }

  /** Task texts on one line, no two alike. */
  predicate PlainTasks(items: seq<TaskItem>) {
    && (forall k :: 0 <= k < |ShownTasks(items)| ==> SingleLine(ShownTasks(items)[k].text))
    && (forall i, j :: 0 <= i < j < |ShownTasks(items)| ==>
          KeyOf(ShownTasks(items)[i].text) != KeyOf(ShownTasks(items)[j].text))
  }

  /** Link texts and targets on one line, texts without "](", no two targets alike. */
  predicate PlainLinks(items: seq<LinkItem>) {
    var links := ShownLinks(items);
    && (forall k :: 0 <= k < |links| ==>
          SingleLine(links[k].text) && SingleLine(links[k].target) && Index(links[k].text, LINK_MID) < 0)
    && (forall i, j :: 0 <= i < j < |links| ==> links[i].target != links[j].target)
  }

  predicate Printable(c: Content) {
    && PlainItems(c.summary, Topics) && PlainItems(c.facts, Facts)
    && PlainTasks(c.tasks) && PlainTasks(c.followUps) && PlainLinks(c.links)
  }

  lemma PlainEntriesAreGood(items: seq<KVItem>, kind: Kind)
    requires PlainItems(items, kind)
    ensures GoodEntries(Entries(items, kind), kind)
  {
    var es := Entries(items, kind);
    EntriesAreShaped(items, kind);
    forall k | 0 <= k < |es| ensures GoodEntry(es[k], kind) {
      assert ShapedEntry(es[k], kind) && PlainEntry(es[k], kind);
    }
  }

  lemma {:induction false} ShownTasksAreShaped(items: seq<TaskItem>)
    ensures forall k :: 0 <= k < |ShownTasks(items)| ==>
              Trimmed(ShownTasks(items)[k].text) && ShownTasks(items)[k].text != ""
  {
    if items != [] {
      var n := |items| - 1;
      ShownTasksAreShaped(items[..n]);
      var i, j := TrimParts(items[n].text);
    }
  }

  lemma {:induction false} ShownLinksAreShaped(items: seq<LinkItem>)
    ensures forall k :: 0 <= k < |ShownLinks(items)| ==>
              && Trimmed(ShownLinks(items)[k].text) && ShownLinks(items)[k].text != ""
              && Trimmed(ShownLinks(items)[k].target) && ShownLinks(items)[k].target != ""
  {
    if items != [] {
      var n := |items| - 1;
      ShownLinksAreShaped(items[..n]);
      var i, j := TrimParts(items[n].text);
      var i', j' := TrimParts(items[n].target);
    }
  }

  lemma PrintableIsGood(c: Content)
    requires Printable(c)
    ensures Good(Show(c))
  {
    PlainEntriesAreGood(c.summary, Topics);
    PlainEntriesAreGood(c.facts, Facts);
    ShownTasksAreShaped(c.tasks);
    ShownTasksAreShaped(c.followUps);
    ShownLinksAreShaped(c.links);
  }

  /** Main result: printing, reading and printing again gives the same body, for any content
      with unique one-line titles and plain keys, whatever else its values hold. */
  lemma FixedPoint(date: string, c: Content)
    requires SingleLine(date) && Printable(c)
    ensures Read(Build(date, c)).Some? && Build(date, Read(Build(date, c)).value) == Build(date, c)
  {
    PrintableIsGood(c);
    GoodIsFixed(date, c);
  }

  /** Main result: reading a printed body gives the shown content, so reading again after
      another round changes nothing. */
  lemma ReadingIsFixed(date: string, c: Content)
    requires SingleLine(date) && Printable(c)
    ensures Read(Build(date, c)) == Some(ContentOf(Show(c)))
    ensures Read(Build(date, ContentOf(Show(c)))) == Some(ContentOf(Show(c)))
  {
    PrintableIsGood(c);
    ParseOfBuild(date, c);
    GoodIsFixed(date, c);
  }
}
