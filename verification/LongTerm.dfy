/** Long-term memory bodies: printing, reading, and the to-do sections kept behind them
    (memory/merge.go:35-41, 120-126, 1077-1092; memory/update.go:240-262, 514-570). */
module LongTerm {
  import opened Wrappers
  import opened Text
  import opened MemorySections
  import opened MemoryLines
  import opened MemoryItems

  datatype Content = Content(goals: seq<KVItem>, facts: seq<KVItem>)

  // ---- printing ----

  const LABEL_END := "**: "

  function ItemText(it: KVItem): string {
    KV_MARK + Trim(it.title) + LABEL_END + Trim(it.value)
  }

  function ItemLine(it: KVItem): seq<string> {
    if Trim(it.title) == "" && Trim(it.value) == "" then [] else [ItemText(it)]
  }

  function ItemLines(items: seq<KVItem>): seq<string> {
    if items == [] then [] else ItemLines(items[..|items| - 1]) + ItemLine(items[|items| - 1])
  }

  function KVBlock(name: string, items: seq<KVItem>): seq<string> {
    [Header(name)] + ItemLines(items) + [""]
  }

  const TITLE := "# Long-Term Memory"

  function BodyLines(c: Content): seq<string> {
    [TITLE, ""] + KVBlock(LONG_GOALS, c.goals) + KVBlock(LONG_FACTS, c.facts)
  }

  /** BuildLongTermBody */
  function Build(c: Content): string {
    Trim(Unlines(BodyLines(c))) + "\n"
  }

  /** One to-do section behind the body. */
  function TodoText(name: string, lines: seq<string>): string {
    if lines == [] then "" else Unlines([Header(name)] + lines + [""])
  }

  /** appendTodoSections */
  function AppendTodo(body: string, tasks: seq<string>, followUps: seq<string>): string {
    var b := Trim(body);
    if tasks == [] && followUps == [] then (if b == "" then "" else b + "\n")
    else
      Trim((if b != "" then b + "\n\n" else "") + TodoText(TASKS, tasks) + TodoText(FOLLOW_UPS, followUps)) + "\n"
  }

  method WriteKVSection(b: string, name: string, items: seq<KVItem>) returns (out: string)
    ensures out == b + Unlines(KVBlock(name, items))
  {
    ghost var h := [Header(name)];
    LineText(Header(name));
    out := b + (Header(name) + "\n");
    for i := 0 to |items|
      invariant out == b + Unlines(h + ItemLines(items[..i]))
    {
      assert items[..i + 1][..i] == items[..i];
      AppendBlock(b, h, ItemLines(items[..i]), ItemLine(items[i]));
      if Trim(items[i].title) == "" && Trim(items[i].value) == "" {
        continue;
      }
      LineText(ItemText(items[i]));
      out := out + (KV_MARK + Trim(items[i].title) + LABEL_END + Trim(items[i].value) + "\n");
    }
    assert items[..|items|] == items;
    out := out + "\n";
    CloseBlock(b, h + ItemLines(items));
  }

  method BuildLongTermBody(c: Content) returns (body: string)
    ensures body == Build(c)
  {
    ghost var start := [TITLE, ""];
    var b := TITLE + "\n\n";
    StartLines();
    assert b == "" + Unlines(start);
    b := WriteKVSection(b, LONG_GOALS, c.goals);
    WriteMore("", start, KVBlock(LONG_GOALS, c.goals));
    b := WriteKVSection(b, LONG_FACTS, c.facts);
    WriteMore("", start + KVBlock(LONG_GOALS, c.goals), KVBlock(LONG_FACTS, c.facts));
    assert "" + Unlines(BodyLines(c)) == Unlines(BodyLines(c));
    body := Trim(b) + "\n";
  }

  lemma StartLines()
    ensures TITLE + "\n\n" == "" + Unlines([TITLE, ""])
  {
    var t := TITLE;
    assert [t, ""] == [t] + [""];
    UnlinesAppend([t], [""]);
    LineText(t);
    LineText("");
    assert t + "\n\n" == t + "\n" + "\n";
  }

  method WriteTodoLines(b: string, name: string, lines: seq<string>) returns (out: string)
    ensures out == b + TodoText(name, lines)
  {
    if lines == [] {
      assert b + "" == b;
      return b;
    }
    ghost var h := [Header(name)];
    LineText(Header(name));
    out := b + (Header(name) + "\n");
    for i := 0 to |lines|
      invariant out == b + Unlines(h + lines[..i])
    {
      assert lines[..i + 1] == lines[..i] + [lines[i]];
      AppendBlock(b, h, lines[..i], [lines[i]]);
      LineText(lines[i]);
      out := out + (lines[i] + "\n");
    }
    assert lines[..|lines|] == lines;
    out := out + "\n";
    CloseBlock(b, h + lines);
  }

  method AppendTodoSections(body: string, tasks: seq<string>, followUps: seq<string>) returns (out: string)
    ensures out == AppendTodo(body, tasks, followUps)
  {
    var b := Trim(body);
    if tasks == [] && followUps == [] {
      if b == "" {
        return "";
      }
      return b + "\n";
    }
    out := "";
    if b != "" {
      out := b + "\n\n";
    }
    out := WriteTodoLines(out, TASKS, tasks);
    out := WriteTodoLines(out, FOLLOW_UPS, followUps);
    out := Trim(out) + "\n";
  }

  // ---- reading ----

  /** ParseLongTermContent */
  function Parse(body: string): Content {
    var lines := CleanLines(body);
    Content(ParseKV(Section(lines, LONG_GOALS)), ParseKV(Section(lines, LONG_FACTS)))
  }

  method ParseLongTermContent(body: string) returns (c: Content)
    ensures c == Parse(body)
  {
    var sections := SplitSections(body);
    SectionIsTrimmed(body, LONG_GOALS);
    SectionIsTrimmed(body, LONG_FACTS);
    assert HoldsSections(sections, CleanLines(body));
    var goals := ParseKVSection(Lookup(sections, LONG_GOALS));
    var facts := ParseKVSection(Lookup(sections, LONG_FACTS));
    c := Content(goals, facts);
  }

  /** What UpdateLongTerm writes for new content over an old body: the to-do lines stay. */
  function Rewrite(old_: string, c: Content): string {
    AppendTodo(Build(c), Section(CleanLines(old_), TASKS), Section(CleanLines(old_), FOLLOW_UPS))
  }

  method RewriteBody(old_: string, c: Content) returns (out: string)
    ensures out == Rewrite(old_, c)
  {
    var tasks, followUps := ExtractTodoSections(old_);
    var body := BuildLongTermBody(c);
    out := AppendTodoSections(body, tasks, followUps);
  }

  // ---- one item ----

  /** A title its line gives back. */
  predicate GoodTitle(title: string) {
    CleanText(title) && Index(title, BOLD) < 0 && title[|title| - 1] != '*'
  }

  /** A value its line gives back. */
  predicate GoodValue(value: string) {
    Trimmed(value) && SingleLine(value)
  }

  predicate GoodItem(it: KVItem) {
    GoodTitle(it.title) && GoodValue(it.value)
  }

  /** The line of an item as reading sees it. */
  function ReadItem(title: string, value: string): string {
    KV_MARK + title + (BOLD + LabelRest(value))
  }

  /** What stands behind the label, without a trailing blank. */
  function LabelRest(value: string): string {
    if value == "" then ":" else ": " + value
  }

  lemma BoldPair(s: string, k: nat)
    ensures OccursAt(s, BOLD, k) <==> k + 1 < |s| && s[k] == '*' && s[k + 1] == '*'
  {
    if k + 1 < |s| {
      assert s[k..k + 2] == [s[k], s[k + 1]];
    }
  }

  /** The label ends where the title ends. */
  lemma LabelEnds(title: string, rest: string)
    requires GoodTitle(title)
    ensures Index(title + (BOLD + rest), BOLD) == |title|
  {
    var s, n := title + (BOLD + rest), |title|;
    assert s[n..n + 2] == BOLD;
    forall k | 0 <= k < n ensures !OccursAt(s, BOLD, k) {
      BoldPair(s, k);
      assert s[k] == title[k];
      if k + 1 < n {
        assert s[k + 1] == title[k + 1];
        BoldPair(title, k);
        assert !OccursAt(title, BOLD, k);
      }
    }
    IndexIs(s, BOLD, n);
  }

  lemma LabelBack(title: string, rest: string)
    requires GoodTitle(title)
    ensures ParseKVLine(KV_MARK + title + (BOLD + rest)) == Some(KVItem(title, AfterColon(rest)))
  {
    var l := KV_MARK + title + (BOLD + rest);
    var s := title + (BOLD + rest);
    assert l == KV_MARK + s;
    assert l[..|KV_MARK|] == KV_MARK && l[|KV_MARK|..] == s;
    LabelEnds(title, rest);
    assert s[..|title|] == title && s[|title| + 2..] == rest;
    TrimIdle(title);
  }

  lemma ColonValue(value: string)
    requires Trimmed(value)
    ensures AfterColon(": " + value) == value && AfterColon(":") == ""
  {
    TrimIdle(":");
    TrimIdle("");
    assert ":"[1..] == "";
    if value == "" {
      TrimUnique("", ":", " ");
      assert ": " + value == "" + ":" + " ";
    } else {
      var t := ": " + value;
      assert t[0] == ':' && t[|t| - 1] == value[|value| - 1];
      TrimIdle(t);
      TrimSpaceBefore(value);
      assert t[1..] == " " + value;
    }
  }

  lemma ItemBack(title: string, value: string)
    requires GoodTitle(title) && Trimmed(value)
    ensures ParseKVLine(ReadItem(title, value)) == Some(KVItem(title, value))
    ensures ParseNumberedKVLine(ReadItem(title, value)) == None && !IsHeader(ReadItem(title, value))
  {
    ColonValue(value);
    LabelBack(title, LabelRest(value));
    MarkFirst(title, BOLD + LabelRest(value));
    DashLine(ReadItem(title, value));
  }

  lemma MarkFirst(title: string, rest: string)
    ensures HasPrefix(KV_MARK + title + rest, KV_MARK)
  {
  }

  lemma DashLine(l: string)
    requires HasPrefix(l, KV_MARK)
    ensures ParseNumberedKVLine(l) == None && !IsHeader(l)
  {
    assert l[0] == KV_MARK[0] == '-' && HEADER[0] == '#';
    var dot := Index(l, ".");
    assert dot > 0 ==> l[..dot][0] == '-';
  }

  /** A written line with a trimmed value is read without its trailing blank, if any. */
  lemma ItemLineReads(title: string, value: string)
    requires CleanText(title) && GoodValue(value)
    ensures CleanLine(KV_MARK + title + LABEL_END + value) == [ReadItem(title, value)]
    ensures SingleLine(KV_MARK + title + LABEL_END + value)
  {
    ItemSpelled(title, value);
    ItemIsClean(title, value);
    var r := ReadItem(title, value);
    TrimUnique("", r, if value == "" then " " else "");
    assert "" + r + " " == r + " " && "" + r + "" == r;
    assert SingleLine(KV_MARK) && SingleLine(LABEL_END);
  }

  lemma ItemSpelled(title: string, value: string)
    ensures KV_MARK + title + LABEL_END + value
         == ReadItem(title, value) + (if value == "" then " " else "")
  {
    assert LABEL_END == BOLD + ": ";
  }

  lemma ItemIsClean(title: string, value: string)
    requires CleanText(title) && GoodValue(value)
    ensures CleanText(ReadItem(title, value))
  {
    var r, rest := ReadItem(title, value), LabelRest(value);
    assert r[0] == KV_MARK[0] && r[|r| - 1] == rest[|rest| - 1];
    assert rest[|rest| - 1] == if value == "" then ':' else value[|value| - 1];
    assert SingleLine(KV_MARK) && SingleLine(BOLD) && SingleLine(rest);
  }

  // ---- the first line of a value, and the lines behind it ----

  /** What reading makes of a value: its first line. */
  function FirstLineOf(value: string): string {
    var v := Trim(value);
    var i := Index(v, "\n");
    Trim(if i < 0 then v else v[..i])
  }

  lemma FirstLineIsGood(value: string)
    ensures GoodValue(FirstLineOf(value))
  {
    var v := Trim(value);
    var i := Index(v, "\n");
    var l := if i < 0 then v else v[..i];
    forall k | 0 <= k < |l| ensures l[k] != '\n' {
      assert !OccursAt(v, "\n", k);
    }
    TrimOfSingleLine(l);
    var a, b := TrimParts(l);
  }

  /** The other lines of a value, as reading sees them. */
  function RestLines(value: string): seq<string> {
    var v := Trim(value);
    var i := Index(v, "\n");
    if i < 0 then [] else CleanLines(v[i + 1..])
  }

  lemma OneLineValue(value: string)
    requires GoodValue(value)
    ensures RestLines(value) == [] && FirstLineOf(value) == value
  {
    TrimIdle(value);
    assert forall k :: OccursAt(value, "\n", k) ==> value[k] == '\n';
  }

  /** The lines an item prints, as reading sees them, whatever its value holds. */
  function ItemRead(it: KVItem): seq<string> {
    [ReadItem(it.title, FirstLineOf(it.value))] + RestLines(it.value)
  }

  function AllRead(items: seq<KVItem>): seq<string> {
    if items == [] then [] else AllRead(items[..|items| - 1]) + ItemRead(items[|items| - 1])
  }

  predicate CleanTitles(items: seq<KVItem>) {
    forall k :: 0 <= k < |items| ==> CleanText(items[k].title)
  }

  /** The first line of a value is not indented. */
  lemma OpeningLine(title: string, l: string, value: string)
    requires CleanText(title) && SingleLine(l) && Trimmed(value) && l <= value && (value != "" ==> l != "")
    ensures CleanLine(KV_MARK + title + LABEL_END + l) == [ReadItem(title, Trim(l))]
  {
    if l == "" {
      TrimIdle("");
      ItemLineReads(title, "");
    } else {
      var v := Trim(l);
      assert l[0] == value[0];
      var tail := TrimTail(l);
      TrimOfSingleLine(l);
      ItemIsClean(title, v);
      TrimUnique("", ReadItem(title, v), tail);
      OpeningSpelled(title, v, tail);
    }
  }

  /** A text that opens with ink loses only its tail. */
  lemma TrimTail(s: string) returns (tail: string)
    requires s != "" && !IsSpace(s[0])
    ensures s == Trim(s) + tail && Blank(tail) && Trim(s) != "" && Trimmed(Trim(s))
  {
    var j := LastInk(s, 0, |s|);
    LastInkShape(s, 0, |s|);
    tail := s[j..];
    assert Trim(s) == s[0..j];
  }

  lemma OpeningSpelled(title: string, v: string, tail: string)
    requires v != ""
    ensures KV_MARK + title + LABEL_END + (v + tail) == "" + ReadItem(title, v) + tail
  {
    ItemSpelled(title, v);
    assert KV_MARK + title + LABEL_END + (v + tail) == (KV_MARK + title + LABEL_END + v) + tail;
    assert "" + ReadItem(title, v) == ReadItem(title, v) && ReadItem(title, v) + "" == ReadItem(title, v);
  }

  lemma TextReads(title: string, value: string)
    requires CleanText(title) && Trimmed(value)
    ensures CleanLines(KV_MARK + title + LABEL_END + value) == [ReadItem(title, FirstLineOf(value))] + RestLines(value)
  {
    var found, l, rest := FirstLine(value);
    var head := KV_MARK + title + LABEL_END;
    TrimIdle(value);
    FirstLineAt(value, found, l, rest);
    OpeningLine(title, l, value);
    assert SingleLine(KV_MARK) && SingleLine(LABEL_END);
    if found {
      ConcatLine(head, l, rest);
      CleanLinesPiece(head + l, rest);
    } else {
      CleanLinesOfLine(head + l);
    }
  }

  lemma ConcatLine(head: string, l: string, rest: string)
    ensures head + (l + "\n" + rest) == head + l + "\n" + rest
  {
  }

  lemma FirstLineAt(value: string, found: bool, l: string, rest: string)
    requires Trimmed(value) && SingleLine(l) && (if found then value == l + "\n" + rest else value == l)
    ensures FirstLineOf(value) == Trim(l) && RestLines(value) == (if found then CleanLines(rest) else [])
  {
    TrimIdle(value);
    if found {
      CutAtChar(l, '\n', rest);
      assert l + ['\n'] + rest == value;
    } else {
      assert forall k :: OccursAt(value, "\n", k) ==> value[k] == '\n';
    }
  }

  lemma ItemTextReads(it: KVItem)
    requires CleanText(it.title)
    ensures CleanLines(Unlines(ItemLine(it))) == ItemRead(it)
  {
    var i, j := TrimParts(it.value);
    TrimIdle(it.title);
    TrimIdempotent(it.value);
    TextReads(it.title, Trim(it.value));
    LineText(ItemText(it));
    CleanLinesSpaceAfter(ItemText(it), '\n');
  }

  lemma {:induction false} ItemLinesRead(items: seq<KVItem>)
    requires CleanTitles(items)
    ensures CleanLines(Unlines(ItemLines(items))) == AllRead(items)
  {
    if items == [] {
      NoLines();
    } else {
      var n := |items| - 1;
      ItemLinesRead(items[..n]);
      ItemTextReads(items[n]);
      LinesBehind(ItemLines(items[..n]), ItemLine(items[n]));
    }
  }

  // ---- the items of a section ----

  predicate GoodItems(items: seq<KVItem>) {
    forall k :: 0 <= k < |items| ==> GoodItem(items[k])
  }

  /** A line that opens neither an item nor a section. */
  predicate Inert(l: string) {
    !IsHeader(l) && ParseNumberedKVLine(l).None? && ParseKVLine(l).None?
  }

  predicate InertLines(lines: seq<string>) {
    forall k :: 0 <= k < |lines| ==> Inert(lines[k])
  }

  /** A title its line gives back, and a value whose further lines open nothing. */
  predicate TameItem(it: KVItem) {
    GoodTitle(it.title) && InertLines(RestLines(it.value))
  }

  predicate TameItems(items: seq<KVItem>) {
    forall k :: 0 <= k < |items| ==> TameItem(items[k])
  }

  lemma GoodIsTame(items: seq<KVItem>)
    requires GoodItems(items)
    ensures TameItems(items) && FirstLines(items) == items
  {
    forall k | 0 <= k < |items| ensures TameItem(items[k]) && FirstLines(items)[k] == items[k] {
      assert GoodItem(items[k]);
      OneLineValue(items[k].value);
    }
  }

  /** The item a title and any value are read as. */
  function ReadAs(it: KVItem): KVItem {
    KVItem(it.title, FirstLineOf(it.value))
  }

  function FirstLines(items: seq<KVItem>): seq<KVItem> {
    seq(|items|, i requires 0 <= i < |items| => ReadAs(items[i]))
  }

  lemma FirstLinesNext(items: seq<KVItem>, it: KVItem)
    ensures FirstLines(items + [it]) == FirstLines(items) + [ReadAs(it)]
  {
  }

  lemma FirstLinesAreGood(items: seq<KVItem>)
    requires forall k :: 0 <= k < |items| ==> GoodTitle(items[k].title)
    ensures GoodItems(FirstLines(items))
    ensures UniqueTitles(items) ==> UniqueTitles(FirstLines(items))
  {
    forall k | 0 <= k < |items| ensures GoodItem(FirstLines(items)[k]) {
      FirstLineIsGood(items[k].value);
    }
    if UniqueTitles(items) {
      forall i, j | 0 <= i < j < |items|
        ensures KeyOf(FirstLines(items)[i].title) != KeyOf(FirstLines(items)[j].title)
      {
        assert KeyOf(items[i].title) != KeyOf(items[j].title);
      }
    }
  }

  lemma {:induction false} TameIsPlain(items: seq<KVItem>)
    requires TameItems(items)
    ensures Plain(AllRead(items))
  {
    if items != [] {
      var n := |items| - 1;
      TameIsPlain(items[..n]);
      assert TameItem(items[n]);
      FirstLineIsGood(items[n].value);
      ItemBack(items[n].title, FirstLineOf(items[n].value));
    }
  }

  /** An item line closes what was open and its own item at once. */
  lemma ReadKVLine(r: Reading, l: string, it: KVItem)
    requires ParseNumberedKVLine(l) == None && ParseKVLine(l) == Some(it)
    ensures ReadLine(r, l) == Reading(Flush(r).items + [it], "", [])
  {
  }

  lemma NothingOpen(items: seq<KVItem>)
    ensures Flush(Reading(items, "", [])) == Reading(items, "", [])
  {
    TrimIdle("");
  }

  /** Inert lines change nothing while no item is open. */
  lemma {:induction false} InertRead(pre: seq<string>, lines: seq<string>)
    requires InertLines(lines) && ReadLines(pre).title == ""
    ensures ReadLines(pre + lines) == ReadLines(pre)
  {
    if lines == [] {
      assert pre + lines == pre;
    } else {
      var n := |lines| - 1;
      InertRead(pre, lines[..n]);
      LastBehind(pre, lines);
      ReadAppend(pre + lines[..n], lines[n]);
      assert Inert(lines[n]);
    }
  }

  /** Behind closed items, the line of an item and its inert lines close that item. */
  lemma ItemReads(pre: seq<string>, items: seq<KVItem>, it: KVItem)
    requires GoodTitle(it.title) && ReadLines(pre) == Reading(items, "", [])
    ensures ReadLines(pre + [ReadItem(it.title, FirstLineOf(it.value))]) == Reading(items + [ReadAs(it)], "", [])
    ensures TameItem(it) ==> ReadLines(pre + ItemRead(it)) == Reading(items + [ReadAs(it)], "", [])
  {
    var l := ReadItem(it.title, FirstLineOf(it.value));
    FirstLineIsGood(it.value);
    ItemBack(it.title, FirstLineOf(it.value));
    ReadAppend(pre, l);
    NothingOpen(items);
    ReadKVLine(Reading(items, "", []), l, ReadAs(it));
    if TameItem(it) {
      InertRead(pre + [l], RestLines(it.value));
      ConcatThree(pre, [l], RestLines(it.value));
    }
  }

  lemma {:induction false} ItemsRead(items: seq<KVItem>)
    requires TameItems(items)
    ensures ReadLines(AllRead(items)) == Reading(FirstLines(items), "", [])
  {
    if items != [] {
      var n := |items| - 1;
      ItemsRead(items[..n]);
      assert TameItem(items[n]);
      ItemReads(AllRead(items[..n]), FirstLines(items[..n]), items[n]);
      FirstLinesNext(items[..n], items[n]);
      SplitLast(items);
    }
  }

  lemma GoodKeys(items: seq<KVItem>)
    requires CleanTitles(items)
    ensures forall k :: 0 <= k < |items| ==> KeyOf(items[k].title) != ""
  {
    forall k | 0 <= k < |items| ensures KeyOf(items[k].title) != "" {
      TrimIdle(items[k].title);
    }
  }

  lemma ItemsParse(items: seq<KVItem>)
    requires TameItems(items) && UniqueTitles(items)
    ensures ParseKV(AllRead(items)) == FirstLines(items)
  {
    ItemsRead(items);
    NothingOpen(FirstLines(items));
    assert forall k :: 0 <= k < |items| ==> TameItem(items[k]);
    FirstLinesAreGood(items);
    GoodKeys(FirstLines(items));
    NoRepeats(FirstLines(items));
  }

  // ---- the whole document ----

  predicate Good(c: Content) {
    GoodItems(c.goals) && UniqueTitles(c.goals) && GoodItems(c.facts) && UniqueTitles(c.facts)
  }

  /** Unique titles that their lines give back, and values whose further lines open nothing. */
  predicate Tame(c: Content) {
    TameItems(c.goals) && UniqueTitles(c.goals) && TameItems(c.facts) && UniqueTitles(c.facts)
  }

  function BlocksOf(c: Content): seq<Block> {
    [Block(LONG_GOALS, AllRead(c.goals)), Block(LONG_FACTS, AllRead(c.facts))]
  }

  lemma TitleReads()
    ensures Cleans([TITLE, ""], [TITLE]) && !IsHeader(TITLE)
  {
    assert TITLE[0] == '#' && TITLE[1] == ' ' && HEADER[1] == '#' && TITLE[|TITLE| - 1] == 'y';
    CleansOne(TITLE);
    CleansNothing();
    CleansConcat([TITLE], [TITLE], [""], []);
    assert [TITLE] + [""] == [TITLE, ""] && [TITLE] + [] == [TITLE];
  }

  lemma NamesAreClean()
    ensures CleanText(LONG_GOALS) && CleanText(LONG_FACTS) && CleanText(TASKS) && CleanText(FOLLOW_UPS)
    ensures LONG_GOALS != LONG_FACTS && LONG_GOALS != TASKS && LONG_GOALS != FOLLOW_UPS
         && LONG_FACTS != TASKS && LONG_FACTS != FOLLOW_UPS && TASKS != FOLLOW_UPS
  {
    assert LONG_GOALS[0] == 'L' && LONG_FACTS[0] == 'K' && TASKS[0] == 'T' && FOLLOW_UPS[0] == 'F';
  }

  /** The body's lines as reading sees them. */
  lemma BodyRead(c: Content)
    requires CleanTitles(c.goals) && CleanTitles(c.facts)
    ensures CleanLines(Build(c)) == [TITLE] + Seen(BlocksOf(c))
  {
    var w := [TITLE, ""];
    TitleReads();
    CleanLinesOfUnlines(w);
    NamesAreClean();
    ItemLinesRead(c.goals);
    ItemLinesRead(c.facts);
    BlockBehind(w, LONG_GOALS, ItemLines(c.goals));
    BlockBehind(w + KVBlock(LONG_GOALS, c.goals), LONG_FACTS, ItemLines(c.facts));
    CleanLinesOfTrimmed(Unlines(BodyLines(c)));
    SeenTwo(BlocksOf(c)[0], BlocksOf(c)[1]);
    Lead(TITLE, Header(LONG_GOALS), AllRead(c.goals), Header(LONG_FACTS), AllRead(c.facts));
  }

  lemma SeenTwo(a: Block, b: Block)
    ensures Seen([a, b]) == [Header(a.name)] + a.lines + [Header(b.name)] + b.lines
  {
    assert [a, b][..1] == [a] && [a][..0] == [];
    assert Seen([a]) == [] + [Header(a.name)] + a.lines == [Header(a.name)] + a.lines;
  }

  lemma Lead<T>(t: T, g: T, a: seq<T>, h: T, b: seq<T>)
    ensures [t] + ([g] + a + [h] + b) == [t] + [g] + a + [h] + b
  {
  }

  lemma SeenMore(pre: seq<string>, blocks: seq<Block>, b: Block)
    ensures pre + Seen(blocks + [b]) == pre + Seen(blocks) + [Header(b.name)] + b.lines
  {
    assert (blocks + [b])[..|blocks|] == blocks;
    AssocBlock(pre, Seen(blocks), Header(b.name), b.lines);
  }

  /** To-do lines as reading hands them on: clean, and no headers. */
  ghost predicate TodoLines(lines: seq<string>) {
    Plain(lines) && forall k :: 0 <= k < |lines| ==> CleanText(lines[k])
  }

  function TodoBlock(name: string, lines: seq<string>): seq<Block> {
    if lines == [] then [] else [Block(name, lines)]
  }

  lemma TodoTextReads(name: string, lines: seq<string>)
    requires CleanText(name) && TodoLines(lines)
    ensures CleanLines(TodoText(name, lines)) == Seen(TodoBlock(name, lines))
  {
    if lines == [] {
      CleanLinesOfLine("");
      TrimIdle("");
    } else {
      var none: seq<string> := [];
      assert Cleans(none, none);
      CleanIdle(lines);
      BlockRead(none, none, name, lines, lines);
      assert none + ([Header(name)] + lines + [""]) == [Header(name)] + lines + [""];
      CleanLinesOfUnlines([Header(name)] + lines + [""]);
      SeenMore([], [], Block(name, lines));
      assert [] + [Block(name, lines)] == [Block(name, lines)];
      assert [] + Seen([Block(name, lines)]) == Seen([Block(name, lines)]);
      assert [] + Seen([]) == [];
    }
  }

  lemma SectionsAreTodo(old_: string, name: string)
    ensures TodoLines(Section(CleanLines(old_), name))
  {
    SectionIsClean(old_, name);
    var lines := Section(CleanLines(old_), name);
    forall k | 0 <= k < |lines| ensures CleanText(lines[k]) {
      assert lines[k] in lines;
    }
  }

  /** The body with its to-do sections as reading sees it. */
  lemma AppendedRead(body: string, tasks: seq<string>, followUps: seq<string>)
    requires TodoLines(tasks) && TodoLines(followUps)
    ensures CleanLines(AppendTodo(body, tasks, followUps))
         == CleanLines(body) + Seen(TodoBlock(TASKS, tasks)) + Seen(TodoBlock(FOLLOW_UPS, followUps))
  {
    NamesAreClean();
    TodoTextReads(TASKS, tasks);
    TodoTextReads(FOLLOW_UPS, followUps);
    TodoBehind(body, tasks, followUps);
  }

  lemma TodoBehind(body: string, tasks: seq<string>, followUps: seq<string>)
    ensures CleanLines(AppendTodo(body, tasks, followUps))
         == CleanLines(body) + CleanLines(TodoText(TASKS, tasks)) + CleanLines(TodoText(FOLLOW_UPS, followUps))
  {
    var b, t, f := Trim(body), TodoText(TASKS, tasks), TodoText(FOLLOW_UPS, followUps);
    CleanLinesOfTrimmed(body);
    if tasks == [] && followUps == [] {
      NoLines();
      assert CleanLines(body) + [] + [] == CleanLines(body);
    } else {
      TodoTextIsWhole(TASKS, tasks);
      TextsBehind(b, t, f);
      CleanLinesOfTrimmed((if b != "" then b + "\n\n" else "") + t + f);
    }
  }

  lemma TextsBehind(b: string, t: string, f: string)
    requires Whole(t)
    ensures CleanLines((if b != "" then b + "\n\n" else "") + t + f) == CleanLines(b) + CleanLines(t) + CleanLines(f)
  {
    var head := if b != "" then b + "\n\n" else "";
    CleanLinesOfLine("");
    TrimIdle("");
    if b != "" {
      assert head == b + "\n" + "\n";
      CleanLinesBehind(b, "\n");
      CleanLinesPiece("", "");
      assert "" + "\n" + "" == "\n";
      assert CleanLines(b) + ([] + []) == CleanLines(b);
    }
    WholeBehind(head, t);
    assert Whole(head + t);
    WholeBehind(head + t, f);
  }

  lemma TodoTextIsWhole(name: string, lines: seq<string>)
    ensures Whole(TodoText(name, lines))
  {
    if lines != [] {
      UnlinesIsWhole([Header(name)] + lines + [""]);
    }
  }

  lemma {:induction false} SeenConcat(a: seq<Block>, b: seq<Block>)
    ensures Seen(a + b) == Seen(a) + Seen(b)
  {
    if b == [] {
      assert a + b == a && Seen(a) + [] == Seen(a);
    } else {
      var n := |b| - 1;
      assert (a + b)[..|a + b| - 1] == a + b[..n];
      SeenConcat(a, b[..n]);
      AssocBlock(Seen(a), Seen(b[..n]), Header(b[n].name), b[n].lines);
    }
  }

  lemma {:induction false} GatherConcat(a: seq<Block>, b: seq<Block>, name: string)
    ensures Gather(a + b, name) == Gather(a, name) + Gather(b, name)
  {
    if b == [] {
      assert a + b == a && Gather(a, name) + [] == Gather(a, name);
    } else {
      var n := |b| - 1;
      assert (a + b)[..|a + b| - 1] == a + b[..n];
      GatherConcat(a, b[..n], name);
    }
  }

  lemma GatherTodo(name: string, lines: seq<string>, section: string)
    ensures Gather(TodoBlock(name, lines), section) == if name == section then lines else []
  {
    if lines != [] {
      assert [Block(name, lines)][..0] == [];
      assert [] + lines == lines;
    }
  }

  lemma GatherBody(c: Content, section: string)
    ensures Gather(BlocksOf(c), section)
         == if section == LONG_GOALS then AllRead(c.goals)
            else if section == LONG_FACTS then AllRead(c.facts) else []
  {
    NamesAreClean();
    GatherTwo(BlocksOf(c)[0], BlocksOf(c)[1], section);
  }

  lemma GatherTwo(a: Block, b: Block, name: string)
    ensures Gather([a, b], name)
         == (if a.name == name then a.lines else []) + (if b.name == name then b.lines else [])
  {
    var none: seq<Block> := [];
    var first := if a.name == name then a.lines else [];
    assert [a, b][..1] == [a] && [a][..0] == none;
    assert Gather(none, name) == [];
    assert Gather([a], name) == [] + first == first;
  }

  /** Every section of the rewritten file. */
  function SectionOf(old_: string, c: Content, section: string): seq<string> {
    if section == LONG_GOALS then AllRead(c.goals)
    else if section == LONG_FACTS then AllRead(c.facts)
    else if section == TASKS || section == FOLLOW_UPS then Section(CleanLines(old_), section)
    else []
  }

  lemma GatherAll(old_: string, c: Content, tasks: seq<string>, followUps: seq<string>, section: string)
    requires tasks == Section(CleanLines(old_), TASKS) && followUps == Section(CleanLines(old_), FOLLOW_UPS)
    ensures Gather(BlocksOf(c) + TodoBlock(TASKS, tasks) + TodoBlock(FOLLOW_UPS, followUps), section)
         == SectionOf(old_, c, section)
  {
    var t, f := TodoBlock(TASKS, tasks), TodoBlock(FOLLOW_UPS, followUps);
    NamesAreClean();
    GatherConcat(BlocksOf(c) + t, f, section);
    GatherConcat(BlocksOf(c), t, section);
    GatherBody(c, section);
    GatherTodo(TASKS, tasks, section);
    GatherTodo(FOLLOW_UPS, followUps, section);
    Choose(Gather(BlocksOf(c), section), Gather(t, section), Gather(f, section), tasks, followUps,
           section == LONG_GOALS || section == LONG_FACTS, section == TASKS, section == FOLLOW_UPS);
  }

  lemma Choose<T>(
    x: seq<T>, y: seq<T>, z: seq<T>, tasks: seq<T>, followUps: seq<T>, body: bool, first: bool, second: bool)
    requires !(body && first) && !(body && second) && !(first && second) && (!body ==> x == [])
    requires y == (if first then tasks else []) && z == (if second then followUps else [])
    ensures x + y + z == if body then x else if first then tasks else if second then followUps else []
  {
  }

  /** Content whose lines are no headers is found in its sections. */
  predicate PlainItems(items: seq<KVItem>) {
    CleanTitles(items) && Plain(AllRead(items))
  }

  lemma SectionsBack(old_: string, c: Content, section: string)
    requires PlainItems(c.goals) && PlainItems(c.facts) && section != ""
    ensures Section(CleanLines(Rewrite(old_, c)), section) == SectionOf(old_, c, section)
  {
    var tasks, followUps := Section(CleanLines(old_), TASKS), Section(CleanLines(old_), FOLLOW_UPS);
    SectionsAreTodo(old_, TASKS);
    SectionsAreTodo(old_, FOLLOW_UPS);
    RewrittenBlocks(c, tasks, followUps);
    GoodBlocksOf(c, tasks, followUps);
    TitleReads();
    SeenSection([TITLE], BlocksOf(c) + TodoBlock(TASKS, tasks) + TodoBlock(FOLLOW_UPS, followUps), section);
    GatherAll(old_, c, tasks, followUps, section);
  }

  lemma TameTitles(items: seq<KVItem>)
    requires TameItems(items)
    ensures CleanTitles(items) && forall k :: 0 <= k < |items| ==> GoodTitle(items[k].title)
  {
    assert forall k :: 0 <= k < |items| ==> TameItem(items[k]);
  }

  lemma GoodBlocksOf(c: Content, tasks: seq<string>, followUps: seq<string>)
    requires PlainItems(c.goals) && PlainItems(c.facts) && TodoLines(tasks) && TodoLines(followUps)
    ensures GoodBlocks(BlocksOf(c) + TodoBlock(TASKS, tasks) + TodoBlock(FOLLOW_UPS, followUps))
  {
    NamesAreClean();
    assert GoodBlocks(BlocksOf(c));
    assert GoodBlocks(TodoBlock(TASKS, tasks)) && GoodBlocks(TodoBlock(FOLLOW_UPS, followUps));
  }

  lemma SeenThree(pre: seq<string>, a: seq<Block>, b: seq<Block>, c: seq<Block>)
    ensures pre + Seen(a) + Seen(b) + Seen(c) == pre + Seen(a + b + c)
  {
    SeenConcat(a + b, c);
    SeenConcat(a, b);
    ConcatThree(pre, Seen(a), Seen(b));
    ConcatThree(pre, Seen(a) + Seen(b), Seen(c));
  }

  lemma RewrittenBlocks(c: Content, tasks: seq<string>, followUps: seq<string>)
    requires CleanTitles(c.goals) && CleanTitles(c.facts) && TodoLines(tasks) && TodoLines(followUps)
    ensures CleanLines(AppendTodo(Build(c), tasks, followUps))
         == [TITLE] + Seen(BlocksOf(c) + TodoBlock(TASKS, tasks) + TodoBlock(FOLLOW_UPS, followUps))
  {
    BodyRead(c);
    AppendedRead(Build(c), tasks, followUps);
    SeenThree([TITLE], BlocksOf(c), TodoBlock(TASKS, tasks), TodoBlock(FOLLOW_UPS, followUps));
  }

  /** Main result: writing a long-term body over any old file, with the to-do sections behind
      it, and reading it back returns the same titles with the first lines of their values, and
      the same to-do lines. */
  lemma ReadBack(old_: string, c: Content)
    requires Tame(c)
    ensures Parse(Rewrite(old_, c)) == Content(FirstLines(c.goals), FirstLines(c.facts))
    ensures var before, after := CleanLines(old_), CleanLines(Rewrite(old_, c));
      Section(after, TASKS) == Section(before, TASKS) && Section(after, FOLLOW_UPS) == Section(before, FOLLOW_UPS)
  {
    NamesAreClean();
    TameTitles(c.goals);
    TameTitles(c.facts);
    TameIsPlain(c.goals);
    TameIsPlain(c.facts);
    SectionsBack(old_, c, LONG_GOALS);
    SectionsBack(old_, c, LONG_FACTS);
    SectionsBack(old_, c, TASKS);
    SectionsBack(old_, c, FOLLOW_UPS);
    ItemsParse(c.goals);
    ItemsParse(c.facts);
  }

  /** Main result: with values on one line everything comes back. */
  lemma RoundTrip(old_: string, c: Content)
    requires Good(c)
    ensures Parse(Rewrite(old_, c)) == c
    ensures var before, after := CleanLines(old_), CleanLines(Rewrite(old_, c));
      Section(after, TASKS) == Section(before, TASKS) && Section(after, FOLLOW_UPS) == Section(before, FOLLOW_UPS)
  {
    GoodIsTame(c.goals);
    GoodIsTame(c.facts);
    ReadBack(old_, c);
  }

  // ---- an item behind tame ones, whatever follows ----

  lemma {:induction false} ItemsGrow(a: seq<string>, b: seq<string>)
    ensures ReadLines(a).items <= ReadLines(a + b).items
  {
    if b == [] {
      assert a + b == a;
    } else {
      var n := |b| - 1;
      ItemsGrow(a, b[..n]);
      LastBehind(a, b);
      ReadAppend(a + b[..n], b[n]);
      LineGrows(ReadLines(a + b[..n]), b[n]);
      PrefixTwice(ReadLines(a).items, ReadLines(a + b[..n]).items, ReadLines(a + b).items);
    }
  }

  lemma LastBehind<T>(a: seq<T>, b: seq<T>)
    requires b != []
    ensures a + b == (a + b[..|b| - 1]) + [b[|b| - 1]]
  {
  }

  lemma PrefixTwice<T>(a: seq<T>, b: seq<T>, c: seq<T>)
    requires a <= b <= c
    ensures a <= c
  {
  }

  lemma LineGrows(r: Reading, l: string)
    ensures r.items <= ReadLine(r, l).items && r.items <= Flush(r).items
  {
  }

  lemma {:induction false} FirstTitlesGrow(a: seq<KVItem>, b: seq<KVItem>)
    ensures FirstTitles(a) <= FirstTitles(a + b)
  {
    if b == [] {
      assert a + b == a;
    } else {
      var n := |b| - 1;
      FirstTitlesGrow(a, b[..n]);
      assert (a + b)[..|a + b| - 1] == a + b[..n];
    }
  }

  /** Items read at the start of a section are items of the section. */
  lemma ParseGrows(a: seq<string>, b: seq<string>, items: seq<KVItem>)
    requires ReadLines(a) == Reading(items, "", []) && FirstTitles(items) == items
    ensures items <= ParseKV(a + b)
  {
    ItemsGrow(a, b);
    var r := ReadLines(a + b);
    LineGrows(r, "");
    var all := Flush(r).items;
    assert all == items + all[|items|..];
    FirstTitlesGrow(items, all[|items|..]);
  }

  lemma {:induction false} SectionGrows(a: seq<string>, b: seq<string>, name: string)
    ensures Section(a, name) <= Section(a + b, name)
  {
    if b == [] {
      assert a + b == a;
    } else {
      var n := |b| - 1;
      SectionGrows(a, b[..n], name);
      assert (a + b)[..|a + b| - 1] == a + b[..n];
    }
  }

  lemma SectionOpens(p: seq<string>, name: string, read: seq<string>, more: seq<string>)
    requires Section(p, name) == [] && CleanText(name) && Plain(read)
    ensures read <= Section(p + [Header(name)] + read + more, name)
  {
    HeaderIs(name);
    BlockSection(p, Header(name), read, name);
    assert [] + read == read;
    SectionGrows(p + [Header(name)] + read, more, name);
  }

  lemma PrefixSplit<T>(a: seq<T>, b: seq<T>)
    requires a <= b
    ensures b == a + b[|a|..]
  {
  }

  lemma {:induction false} AllReadConcat(a: seq<KVItem>, b: seq<KVItem>)
    ensures AllRead(a + b) == AllRead(a) + AllRead(b)
  {
    if b == [] {
      assert a + b == a && AllRead(a) + [] == AllRead(a);
    } else {
      var n := |b| - 1;
      assert (a + b)[..|a + b| - 1] == a + b[..n];
      AllReadConcat(a, b[..n]);
      ConcatThree(AllRead(a), AllRead(b[..n]), ItemRead(b[n]));
    }
  }

  /** The lines of the items up to the first line of one of them, and what follows. */
  lemma AllReadAt(items: seq<KVItem>, i: nat) returns (after: seq<string>)
    requires i < |items|
    ensures AllRead(items) == AllRead(items[..i]) + [ReadItem(items[i].title, FirstLineOf(items[i].value))] + after
    ensures RestLines(items[i].value) <= after
  {
    var first, rest := [ReadItem(items[i].title, FirstLineOf(items[i].value))], items[i + 1..];
    after := RestLines(items[i].value) + AllRead(rest);
    CutAt(items, i);
    AllReadConcat(items[..i] + [items[i]], rest);
    AllReadNext(items[..i], items[i]);
    Regroup(AllRead(items[..i]), first, RestLines(items[i].value), AllRead(rest));
  }

  lemma CutAt<T>(s: seq<T>, i: nat)
    requires i < |s|
    ensures s == s[..i] + [s[i]] + s[i + 1..]
  {
  }

  lemma AllReadNext(items: seq<KVItem>, it: KVItem)
    ensures AllRead(items + [it]) == AllRead(items) + ItemRead(it)
  {
    assert (items + [it])[..|items|] == items;
  }

  lemma Regroup<T>(a: seq<T>, b: seq<T>, c: seq<T>, d: seq<T>)
    ensures a + (b + c) + d == a + b + (c + d)
  {
  }

  /** A section that opens with tame items, then one with any value, whatever follows. */
  lemma NextItemRead(p: seq<string>, name: string, items: seq<KVItem>, it: KVItem, more: seq<string>)
    requires Section(p, name) == [] && CleanText(name)
    requires TameItems(items) && GoodTitle(it.title) && UniqueTitles(items + [it])
    ensures var read := AllRead(items) + [ReadItem(it.title, FirstLineOf(it.value))];
      FirstLines(items + [it]) <= ParseKV(Section(p + [Header(name)] + read + more, name))
  {
    var read := AllRead(items) + [ReadItem(it.title, FirstLineOf(it.value))];
    var lines := Section(p + [Header(name)] + read + more, name);
    ItemsRead(items);
    ItemReads(AllRead(items), FirstLines(items), it);
    FirstLinesNext(items, it);
    UpToItemIsPlain(items, it);
    SectionOpens(p, name, read, more);
    PrefixSplit(read, lines);
    TitlesReadOnce(items, it);
    ParseGrows(read, lines[|read|..], FirstLines(items + [it]));
  }

  lemma UpToItemIsPlain(items: seq<KVItem>, it: KVItem)
    requires TameItems(items) && GoodTitle(it.title)
    ensures Plain(AllRead(items) + [ReadItem(it.title, FirstLineOf(it.value))])
  {
    TameIsPlain(items);
    FirstLineIsGood(it.value);
    ItemBack(it.title, FirstLineOf(it.value));
  }

  lemma TitlesReadOnce(items: seq<KVItem>, it: KVItem)
    requires TameItems(items) && GoodTitle(it.title) && UniqueTitles(items + [it])
    ensures FirstTitles(FirstLines(items + [it])) == FirstLines(items + [it])
  {
    TameTitles(items);
    FirstLinesAreGood(items + [it]);
    GoodItemsKeys(FirstLines(items + [it]));
    NoRepeats(FirstLines(items + [it]));
  }

  lemma GoodItemsKeys(items: seq<KVItem>)
    requires GoodItems(items)
    ensures forall k :: 0 <= k < |items| ==> KeyOf(items[k].title) != ""
  {
    assert forall k :: 0 <= k < |items| ==> GoodItem(items[k]);
    GoodKeys(items);
  }

  /** What follows the body in the rewritten file. */
  lemma RewrittenBehind(old_: string, c: Content) returns (behind: seq<string>)
    ensures CleanLines(Rewrite(old_, c)) == CleanLines(Unlines(BodyLines(c))) + behind
  {
    var tasks, followUps := Section(CleanLines(old_), TASKS), Section(CleanLines(old_), FOLLOW_UPS);
    TodoBehind(Build(c), tasks, followUps);
    CleanLinesOfTrimmed(Unlines(BodyLines(c)));
    var t, f := CleanLines(TodoText(TASKS, tasks)), CleanLines(TodoText(FOLLOW_UPS, followUps));
    behind := t + f;
    ConcatThree(CleanLines(Build(c)), t, f);
  }

  predicate GoodTitles(items: seq<KVItem>) {
    UniqueTitles(items) && forall k :: 0 <= k < |items| ==> GoodTitle(items[k].title)
  }

  /** The lines of the body up to the first line of one of the goals. */
  lemma UpToGoal(old_: string, c: Content, i: nat) returns (after: seq<string>)
    requires CleanTitles(c.goals) && i < |c.goals|
    ensures CleanLines(Rewrite(old_, c))
         == [TITLE] + [Header(LONG_GOALS)]
            + (AllRead(c.goals[..i]) + [ReadItem(c.goals[i].title, FirstLineOf(c.goals[i].value))]) + after
    ensures RestLines(c.goals[i].value) <= after
  {
    var w := [TITLE, ""];
    var facts := KVBlock(LONG_FACTS, c.facts);
    TitleReads();
    NamesAreClean();
    CleanLinesOfUnlines(w);
    ItemLinesRead(c.goals);
    BlockBehind(w, LONG_GOALS, ItemLines(c.goals));
    LinesBehind(w + KVBlock(LONG_GOALS, c.goals), facts);
    var behind := RewrittenBehind(old_, c);
    var more := AllReadAt(c.goals, i);
    after := more + (CleanLines(Unlines(facts)) + behind);
    var read := AllRead(c.goals[..i]) + [ReadItem(c.goals[i].title, FirstLineOf(c.goals[i].value))];
    Shift([TITLE] + [Header(LONG_GOALS)], read, more, CleanLines(Unlines(facts)), behind);
  }

  lemma Shift<T>(a: seq<T>, b: seq<T>, c: seq<T>, d: seq<T>, e: seq<T>)
    ensures a + (b + c) + d + e == a + b + (c + (d + e))
  {
  }

  /** Behind tame goals the next is read with the first line of its value. */
  lemma GoalRead(old_: string, c: Content, i: nat)
    requires GoodTitles(c.goals) && i < |c.goals| && TameItems(c.goals[..i])
    ensures var goals := Parse(Rewrite(old_, c)).goals;
      i < |goals| && goals[i] == ReadAs(c.goals[i])
  {
    NamesAreClean();
    TitleReads();
    var after := UpToGoal(old_, c, i);
    PreambleSection([TITLE], LONG_GOALS);
    UniquePrefix(c.goals, i);
    NextItemRead([TITLE], LONG_GOALS, c.goals[..i], c.goals[i], after);
    FirstLinesNext(c.goals[..i], c.goals[i]);
    LastOf(FirstLines(c.goals[..i]), ReadAs(c.goals[i]), Parse(Rewrite(old_, c)).goals);
  }

  lemma LastOf(items: seq<KVItem>, it: KVItem, all: seq<KVItem>)
    requires items + [it] <= all
    ensures |items| < |all| && all[|items|] == it
  {
    assert (items + [it])[|items|] == it;
  }

  lemma UniquePrefix(items: seq<KVItem>, i: nat)
    requires UniqueTitles(items) && i < |items|
    ensures UniqueTitles(items[..i] + [items[i]])
  {
    assert items[..i] + [items[i]] == items[..i + 1];
  }

  /** The lines of the body up to the first line of one of the facts. */
  lemma UpToFact(old_: string, c: Content, i: nat) returns (after: seq<string>)
    requires CleanTitles(c.goals) && CleanTitles(c.facts) && i < |c.facts|
    ensures CleanLines(Rewrite(old_, c))
         == ([TITLE] + [Header(LONG_GOALS)] + AllRead(c.goals)) + [Header(LONG_FACTS)]
            + (AllRead(c.facts[..i]) + [ReadItem(c.facts[i].title, FirstLineOf(c.facts[i].value))]) + after
  {
    var tasks, followUps := Section(CleanLines(old_), TASKS), Section(CleanLines(old_), FOLLOW_UPS);
    SectionsAreTodo(old_, TASKS);
    SectionsAreTodo(old_, FOLLOW_UPS);
    BodyRead(c);
    AppendedRead(Build(c), tasks, followUps);
    var t, f := Seen(TodoBlock(TASKS, tasks)), Seen(TodoBlock(FOLLOW_UPS, followUps));
    var more := AllReadAt(c.facts, i);
    var read := AllRead(c.facts[..i]) + [ReadItem(c.facts[i].title, FirstLineOf(c.facts[i].value))];
    SeenTwo(BlocksOf(c)[0], BlocksOf(c)[1]);
    after := more + (t + f);
    Shift([TITLE] + [Header(LONG_GOALS)] + AllRead(c.goals) + [Header(LONG_FACTS)], read, more, t, f);
    Lead(TITLE, Header(LONG_GOALS), AllRead(c.goals), Header(LONG_FACTS), read + more);
  }

  /** The next fact likewise, behind tame goals and facts. */
  lemma FactRead(old_: string, c: Content, i: nat)
    requires TameItems(c.goals) && GoodTitles(c.facts) && i < |c.facts| && TameItems(c.facts[..i])
    ensures var facts := Parse(Rewrite(old_, c)).facts;
      i < |facts| && facts[i] == ReadAs(c.facts[i])
  {
    NamesAreClean();
    TitleReads();
    TameTitles(c.goals);
    TameIsPlain(c.goals);
    var after := UpToFact(old_, c, i);
    PreambleSection([TITLE], LONG_FACTS);
    HeaderIs(LONG_GOALS);
    BlockSection([TITLE], Header(LONG_GOALS), AllRead(c.goals), LONG_FACTS);
    UniquePrefix(c.facts, i);
    NextItemRead([TITLE] + [Header(LONG_GOALS)] + AllRead(c.goals), LONG_FACTS, c.facts[..i], c.facts[i], after);
    FirstLinesNext(c.facts[..i], c.facts[i]);
    LastOf(FirstLines(c.facts[..i]), ReadAs(c.facts[i]), Parse(Rewrite(old_, c)).facts);
  }
}
