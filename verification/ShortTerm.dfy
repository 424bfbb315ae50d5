/** Printing a short-term memory body (memory/merge.go:106-118, 1099-1256). */
module ShortTerm {
  import opened Text
  import opened MemorySections
  import opened MemoryLines
  import Sorting

  datatype Content = Content(
    summary: seq<KVItem>, facts: seq<KVItem>, tasks: seq<TaskItem>, followUps: seq<TaskItem>,
    links: seq<LinkItem>)

  datatype SubItem = SubItem(key: string, value: string)

  /** What a key-value item prints as: its title and its sub-items. */
  datatype Entry = Entry(title: string, subs: seq<SubItem>)

  /** The two kinds of key-value section: Session Summary lists topics, Temporary Facts titles. */
  datatype Kind = Topics | Facts

  // ---- sub-items of a value ----

  function SplitSubitem(line: string): (string, string) {
    var i := Index(line, ":");
    if i < 0 then ("", Trim(line)) else (Trim(line[..i]), Trim(line[i + 1..]))
  }

  function LineSubitem(line: string, defaultKey: string): seq<SubItem> {
    var l := if HasPrefix(line, "-") then Trim(line[1..]) else line;
    var (key, value) := SplitSubitem(l);
    if l == "" || value == "" then [] else [SubItem(if key == "" then defaultKey else key, value)]
  }

  function Subitems(lines: seq<string>, defaultKey: string): seq<SubItem> {
    if lines == [] then []
    else Subitems(lines[..|lines| - 1], defaultKey) + LineSubitem(lines[|lines| - 1], defaultKey)
  }

  lemma SubitemsAppend(lines: seq<string>, l: string, defaultKey: string)
    ensures Subitems(lines + [l], defaultKey) == Subitems(lines, defaultKey) + LineSubitem(l, defaultKey)
  {
    assert (lines + [l])[..|lines|] == lines;
  }

  /** parseValueSubitems */
  function ParseValue(value: string, defaultKey: string): seq<SubItem> {
    Subitems(CleanLines(value), defaultKey)
  }

  method ParseValueSubitems(value: string, defaultKey: string) returns (items: seq<SubItem>)
    ensures items == ParseValue(value, defaultKey)
  {
    CleanLinesOfTrimmed(value);
    items := [];
    var trimmed := Trim(value);
    if trimmed == "" {
      CleanLinesOfLine("");
      return;
    }
    var lines := Split(trimmed, '\n');
    for i := 0 to |lines|
      invariant items == Subitems(Clean(lines[..i]), defaultKey)
    {
      SubitemsNext(lines, i, defaultKey);
      var line := Trim(lines[i]);
      if line == "" {
        continue;
      }
      if HasPrefix(line, "-") {
        line := Trim(line[1..]);
      }
      if line == "" {
        continue;
      }
      var (key, val) := SplitSubitem(line);
      if key == "" {
        key := defaultKey;
      }
      if val == "" {
        continue;
      }
      items := items + [SubItem(key, val)];
    }
    assert lines[..|lines|] == lines;
  }

  lemma SubitemsNext(lines: seq<string>, i: nat, defaultKey: string)
    requires i < |lines|
    ensures Subitems(Clean(lines[..i + 1]), defaultKey)
         == Subitems(Clean(lines[..i]), defaultKey)
            + (if Trim(lines[i]) == "" then [] else LineSubitem(Trim(lines[i]), defaultKey))
  {
    var before := Clean(lines[..i]);
    CleanPrefix(lines, i);
    if Trim(lines[i]) == "" {
      assert before + [] == before;
    } else {
      assert (before + [Trim(lines[i])])[..|before|] == before;
    }
  }

  const USERS := "users"
  const DATETIME := "datetime"
  const EVENT := "event"
  const RESULT := "result"

  /** Where a session sub-item goes; keys are compared without case. */
  function Rank(key: string): nat {
    var k := ToLower(key);
    if k == USERS then 0
    else if k == DATETIME then 1
    else if k == EVENT then 2
    else if k == RESULT then 3
    else 4
  }

  function SubRank(s: SubItem): nat {
    Rank(s.key)
  }

  const RANKS: nat := 5

  /** orderSessionSubitems: Users, Datetime, Event, Result, then the others, each in order. */
  function Ordered(items: seq<SubItem>): seq<SubItem> {
    Sorting.Buckets(SubRank, items, RANKS)
  }

  /** Ordering ordered sub-items changes nothing. */
  lemma OrderedTwice(items: seq<SubItem>)
    ensures Ordered(Ordered(items)) == Ordered(items)
  {
    Sorting.BucketsTwice(SubRank, items, RANKS);
  }

  /** Ordering neither loses nor repeats a sub-item. */
  lemma OrderedKeepsAll(items: seq<SubItem>, x: SubItem)
    ensures Sorting.Count(Ordered(items), x) == Sorting.Count(items, x)
  {
    Sorting.BucketsCount(SubRank, items, RANKS, x);
  }

  const SESSION_ORDER := [USERS, DATETIME, EVENT, RESULT]

  lemma RankIs(key: string, r: nat)
    requires r < 4
    ensures ToLower(key) == SESSION_ORDER[r] <==> Rank(key) == r
  {
    assert USERS[0] == 'u' && DATETIME[0] == 'd' && EVENT[0] == 'e' && RESULT[0] == 'r';
    if r == 0 {
      assert SESSION_ORDER[r] == USERS;
    } else if r == 1 {
      assert SESSION_ORDER[r] == DATETIME;
    } else if r == 2 {
      assert SESSION_ORDER[r] == EVENT;
    } else {
      assert SESSION_ORDER[r] == RESULT;
    }
  }

  /** Which sub-items the keys before r have taken. */
  predicate UsedUpTo(items: seq<SubItem>, used: seq<bool>, r: nat) {
    |used| == |items| && forall i :: 0 <= i < |items| ==> (used[i] <==> Rank(items[i].key) < r)
  }

  method TakeKey(items: seq<SubItem>, used: seq<bool>, r: nat) returns (taken: seq<SubItem>, used': seq<bool>)
    requires r < 4 && UsedUpTo(items, used, r)
    ensures taken == Sorting.Bucket(SubRank, items, r) && UsedUpTo(items, used', r + 1)
  {
    taken, used' := [], used;
    for i := 0 to |items|
      invariant |used'| == |items| && taken == Sorting.Bucket(SubRank, items[..i], r)
      invariant forall j :: i <= j < |items| ==> used'[j] == used[j]
      invariant forall j :: 0 <= j < i ==> (used'[j] <==> Rank(items[j].key) < r + 1)
    {
      assert items[..i + 1][..i] == items[..i];
      RankIs(items[i].key, r);
      if used'[i] {
        continue;
      }
      if ToLower(items[i].key) == SESSION_ORDER[r] {
        taken := taken + [items[i]];
        used' := used'[i := true];
      }
    }
    assert items[..|items|] == items;
  }

  method OrderSessionSubitems(items: seq<SubItem>) returns (ordered: seq<SubItem>)
    ensures ordered == Ordered(items)
  {
    var used := seq(|items|, _ => false);
    ordered := [];
    for r := 0 to 4
      invariant UsedUpTo(items, used, r) && ordered == Sorting.Buckets(SubRank, items, r)
    {
      var taken: seq<SubItem>;
      taken, used := TakeKey(items, used, r);
      ordered := ordered + taken;
    }
    var others: seq<SubItem> := [];
    for i := 0 to |items|
      invariant others == Sorting.Bucket(SubRank, items[..i], 4)
    {
      assert items[..i + 1][..i] == items[..i];
      if !used[i] {
        others := others + [items[i]];
      }
    }
    assert items[..|items|] == items;
    ordered := ordered + others;
  }

  // ---- what an item prints as ----

  const DEFAULT_TITLE := "Item"
  const DEFAULT_EVENT := "Event"
  const DEFAULT_DETAIL := "Detail"

  function ItemEntry(it: KVItem, kind: Kind): seq<Entry> {
    var title := Trim(it.title);
    if title == "" && Trim(it.value) == "" then []
    else [Entry(if title == "" then DEFAULT_TITLE else title, ShownSubs(it.value, kind))]
  }

  function ShownSubs(value: string, kind: Kind): seq<SubItem> {
    match kind
    case Topics => Ordered(ParseValue(value, DEFAULT_EVENT))
    case Facts => ParseValue(value, DEFAULT_DETAIL)
  }

  function Entries(items: seq<KVItem>, kind: Kind): seq<Entry> {
    if items == [] then []
    else Entries(items[..|items| - 1], kind) + ItemEntry(items[|items| - 1], kind)
  }

  const INDENT := "  - "
  const COLON := ": "

  function SubText(s: SubItem): string {
    Trim(s.key) + COLON + Trim(s.value)
  }

  function SubLine(s: SubItem): seq<string> {
    if Trim(s.key) == "" || Trim(s.value) == "" then [] else [INDENT + SubText(s)]
  }

  function SubLines(subs: seq<SubItem>): seq<string> {
    if subs == [] then [] else SubLines(subs[..|subs| - 1]) + SubLine(subs[|subs| - 1])
  }

  const TOPIC_HEAD := ". **Topic**: "
  const FACT_HEAD := ". "

  function HeadLine(number: nat, title: string, kind: Kind): string {
    match kind
    case Topics => Itoa(number) + TOPIC_HEAD + title
    case Facts => Itoa(number) + FACT_HEAD + title + ":"
  }

  function EntriesLines(es: seq<Entry>, kind: Kind): seq<string> {
    if es == [] then []
    else
      var n := |es| - 1;
      EntriesLines(es[..n], kind) + [HeadLine(n + 1, es[n].title, kind)] + SubLines(es[n].subs)
  }

  function KVLines(name: string, items: seq<KVItem>, kind: Kind): seq<string> {
    [Header(name)] + EntriesLines(Entries(items, kind), kind) + [""]
  }

  const TODO_DONE := "- [x] "
  const TODO_OPEN := "- [ ] "

  function TodoLine(it: TaskItem): seq<string> {
    var text := Trim(it.text);
    if text == "" then [] else [(if it.done then TODO_DONE else TODO_OPEN) + text]
  }

  function TodoLines(items: seq<TaskItem>): seq<string> {
    if items == [] then [] else TodoLines(items[..|items| - 1]) + TodoLine(items[|items| - 1])
  }

  function TodoBlock(name: string, items: seq<TaskItem>): seq<string> {
    [Header(name)] + TodoLines(items) + [""]
  }

  const LINK_OPEN := "- ["
  const LINK_MID := "]("
  const LINK_CLOSE := ")"

  function LinkText(it: LinkItem): string {
    if Trim(it.text) == "" then Trim(it.target) else Trim(it.text)
  }

  function LinkLine(it: LinkItem): seq<string> {
    if Trim(it.target) == "" then [] else [LINK_OPEN + LinkText(it) + LINK_MID + Trim(it.target) + LINK_CLOSE]
  }

  function LinkLines(items: seq<LinkItem>): seq<string> {
    if items == [] then [] else LinkLines(items[..|items| - 1]) + LinkLine(items[|items| - 1])
  }

  function LinkBlock(name: string, items: seq<LinkItem>): seq<string> {
    [Header(name)] + LinkLines(items) + [""]
  }

  function Title(date: string): string {
    "# " + date + " Short-Term Memory"
  }

  function BodyLines(date: string, c: Content): seq<string> {
    [Title(date), ""] + KVLines(SESSION_SUMMARY, c.summary, Topics) + KVLines(TEMPORARY_FACTS, c.facts, Facts)
    + TodoBlock(TASKS, c.tasks) + TodoBlock(FOLLOW_UPS, c.followUps) + LinkBlock(RELATED_LINKS, c.links)
  }

  /** BuildShortTermBody */
  function Build(date: string, c: Content): string {
    Trim(Unlines(BodyLines(date, c))) + "\n"
  }

  // ---- the writers ----

  method WriteSubitems(b: string, items: seq<SubItem>) returns (out: string)
    ensures out == b + Unlines(SubLines(items))
  {
    out := b;
    for i := 0 to |items|
      invariant out == b + Unlines(SubLines(items[..i]))
    {
      assert items[..i + 1][..i] == items[..i];
      WriteMore(b, SubLines(items[..i]), SubLine(items[i]));
      var key, val := Trim(items[i].key), Trim(items[i].value);
      if key == "" || val == "" {
        continue;
      }
      LineText(INDENT + SubText(items[i]));
      out := out + (INDENT + (key + COLON + val) + "\n");
    }
    assert items[..|items|] == items;
  }

  method WriteTodoSection(b: string, name: string, items: seq<TaskItem>) returns (out: string)
    ensures out == b + Unlines(TodoBlock(name, items))
  {
    ghost var h := [Header(name)];
    LineText(Header(name));
    out := b + (Header(name) + "\n");
    for i := 0 to |items|
      invariant out == b + Unlines(h + TodoLines(items[..i]))
    {
      assert items[..i + 1][..i] == items[..i];
      AppendBlock(b, h, TodoLines(items[..i]), TodoLine(items[i]));
      var text := Trim(items[i].text);
      if text == "" {
        continue;
      }
      var mark := if items[i].done then TODO_DONE else TODO_OPEN;
      LineText(mark + text);
      out := out + (mark + text + "\n");
    }
    assert items[..|items|] == items;
    out := out + "\n";
    CloseBlock(b, h + TodoLines(items));
  }

  method WriteLinkSection(b: string, name: string, items: seq<LinkItem>) returns (out: string)
    ensures out == b + Unlines(LinkBlock(name, items))
  {
    ghost var h := [Header(name)];
    LineText(Header(name));
    out := b + (Header(name) + "\n");
    for i := 0 to |items|
      invariant out == b + Unlines(h + LinkLines(items[..i]))
    {
      assert items[..i + 1][..i] == items[..i];
      AppendBlock(b, h, LinkLines(items[..i]), LinkLine(items[i]));
      var text, target := Trim(items[i].text), Trim(items[i].target);
      if target == "" {
        continue;
      }
      if text == "" {
        text := target;
      }
      var line := LINK_OPEN + text + LINK_MID + target + LINK_CLOSE;
      LineText(line);
      out := out + (line + "\n");
    }
    assert items[..|items|] == items;
    out := out + "\n";
    CloseBlock(b, h + LinkLines(items));
  }

  method WriteShortTermKVSection(b: string, name: string, items: seq<KVItem>, kind: Kind) returns (out: string)
    ensures out == b + Unlines(KVLines(name, items, kind))
  {
    ghost var h := [Header(name)];
    LineText(Header(name));
    out := b + (Header(name) + "\n");
    var index := 1;
    for i := 0 to |items|
      invariant index == |Entries(items[..i], kind)| + 1
      invariant out == b + Unlines(h + EntriesLines(Entries(items[..i], kind), kind))
    {
      assert items[..i + 1][..i] == items[..i];
      ghost var es := Entries(items[..i], kind);
      var title, value := Trim(items[i].title), Trim(items[i].value);
      if title == "" && value == "" {
        assert es + [] == es;
        continue;
      }
      if title == "" {
        title := DEFAULT_TITLE;
      }
      var head := HeadLine(index, title, kind);
      var subs := ReadSubs(value, kind);
      ValueTrimmed(items[i].value, kind);
      EntriesNext(es, Entry(title, subs), kind);
      AppendBlock(b, h, EntriesLines(es, kind), [head]);
      AppendBlock(b, h, EntriesLines(es, kind) + [head], SubLines(subs));
      LineText(head);
      out := out + (head + "\n");
      out := WriteSubitems(out, subs);
      index := index + 1;
    }
    assert items[..|items|] == items;
    out := out + "\n";
    CloseBlock(b, h + EntriesLines(Entries(items, kind), kind));
  }

  method ReadSubs(value: string, kind: Kind) returns (subs: seq<SubItem>)
    ensures subs == ShownSubs(value, kind)
  {
    match kind
    case Topics =>
      subs := ParseValueSubitems(value, DEFAULT_EVENT);
      subs := OrderSessionSubitems(subs);
    case Facts =>
      subs := ParseValueSubitems(value, DEFAULT_DETAIL);
  }

  lemma ValueTrimmed(value: string, kind: Kind)
    ensures ShownSubs(Trim(value), kind) == ShownSubs(value, kind)
  {
    CleanLinesOfTrimmed(value);
  }

  lemma EntriesNext(es: seq<Entry>, e: Entry, kind: Kind)
    ensures EntriesLines(es + [e], kind)
         == EntriesLines(es, kind) + [HeadLine(|es| + 1, e.title, kind)] + SubLines(e.subs)
  {
    assert (es + [e])[..|es|] == es;
  }

  method BuildShortTermBody(date: string, c: Content) returns (body: string)
    ensures body == Build(date, c)
  {
    ghost var start := [Title(date), ""];
    var b := "# " + date + " Short-Term Memory" + "\n\n";
    StartLines(date);
    assert b == "" + Unlines(start);
    b := WriteShortTermKVSection(b, SESSION_SUMMARY, c.summary, Topics);
    WriteMore("", start, KVLines(SESSION_SUMMARY, c.summary, Topics));
    b := WriteShortTermKVSection(b, TEMPORARY_FACTS, c.facts, Facts);
    ghost var kv := start + KVLines(SESSION_SUMMARY, c.summary, Topics);
    WriteMore("", kv, KVLines(TEMPORARY_FACTS, c.facts, Facts));
    b := WriteTodoSection(b, TASKS, c.tasks);
    kv := kv + KVLines(TEMPORARY_FACTS, c.facts, Facts);
    WriteMore("", kv, TodoBlock(TASKS, c.tasks));
    b := WriteTodoSection(b, FOLLOW_UPS, c.followUps);
    kv := kv + TodoBlock(TASKS, c.tasks);
    WriteMore("", kv, TodoBlock(FOLLOW_UPS, c.followUps));
    b := WriteLinkSection(b, RELATED_LINKS, c.links);
    kv := kv + TodoBlock(FOLLOW_UPS, c.followUps);
    WriteMore("", kv, LinkBlock(RELATED_LINKS, c.links));
    assert "" + Unlines(BodyLines(date, c)) == Unlines(BodyLines(date, c));
    body := Trim(b) + "\n";
  }

  lemma StartLines(date: string)
    ensures "# " + date + " Short-Term Memory" + "\n\n" == "" + Unlines([Title(date), ""])
  {
    var t := Title(date);
    assert [t, ""] == [t] + [""];
    UnlinesAppend([t], [""]);
    LineText(t);
    LineText("");
    assert t + "\n\n" == t + "\n" + "\n";
  }
}
