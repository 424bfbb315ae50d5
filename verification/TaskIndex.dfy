/** The frontmatter ratios that index the to-do items of a short-term body
    (memory/update.go:116-226, 269-276; memory/merge.go:401-417, 1022-1049;
    memory/task_counts.go; memory/telegram.go:134-159; memory/inject.go:92-121). */
module TaskIndex {
  import opened Wrappers
  import opened Text
  import opened MemorySections
  import MemoryLines
  import opened MemoryItems
  import KeyPlaces
  import opened ShortTerm
  import opened ShortTermRoundTrip

  // ---- counts and ratios ----

  datatype Counts = Counts(done: nat, total: nat)

  function CountTasks(items: seq<TaskItem>): Counts {
    if items == [] then Counts(0, 0)
    else
      var before, it := CountTasks(items[..|items| - 1]), items[|items| - 1];
      if Trim(it.text) == "" then before
      else Counts(before.done + (if it.done then 1 else 0), before.total + 1)
  }

  method TaskCounts(items: seq<TaskItem>) returns (done: nat, total: nat)
    ensures Counts(done, total) == CountTasks(items) && done <= total
  {
    done, total := 0, 0;
    for i := 0 to |items|
      invariant Counts(done, total) == CountTasks(items[..i]) && done <= total
    {
      assert items[..i + 1][..i] == items[..i];
      if Trim(items[i].text) == "" {
        continue;
      }
      total := total + 1;
      if items[i].done {
        done := done + 1;
      }
    }
    assert items[..|items|] == items;
  }

  function FormatRatio(c: Counts): string {
    Itoa(c.done) + "/" + Itoa(c.total)
  }

  function ParseRatio(val: string): Option<Counts> {
    var parts := Split(Trim(val), '/');
    if Trim(val) == "" || |parts| != 2 then None
    else match (Atoi(Trim(parts[0])), Atoi(Trim(parts[1])))
      case (Some(d), Some(t)) => if d < 0 || t < 0 then None else Some(Counts(d, t))
      case _ => None
  }

  /** Reading a printed ratio gives the counts back. */
  lemma RatioBack(c: Counts)
    ensures ParseRatio(FormatRatio(c)) == Some(c) && Trim(FormatRatio(c)) != ""
  {
    var d, t := Itoa(c.done), Itoa(c.total);
    ItoaPlain(c.done);
    ItoaPlain(c.total);
    var r := d + "/" + t;
    assert r[0] == d[0] && r[|r| - 1] == t[|t| - 1];
    TrimIdle(r);
    SplitPiece(d, '/', t);
    SplitWhole(t, '/');
    TrimIdle(d);
    TrimIdle(t);
    AtoiItoa(c.done);
    AtoiItoa(c.total);
  }

  // ---- merging tasks ----

  function Normalize(items: seq<TaskItem>): seq<TaskItem> {
    if items == [] then []
    else
      var before, it := Normalize(items[..|items| - 1]), items[|items| - 1];
      if Trim(it.text) == "" || HasText(before, KeyOf(Trim(it.text))) then before
      else before + [TaskItem(Trim(it.text), it.done)]
  }

  method NormalizeTasks(items: seq<TaskItem>) returns (out: seq<TaskItem>)
    ensures out == Normalize(items)
  {
    out := [];
    var seen: set<string> := {};
    for i := 0 to |items|
      invariant out == Normalize(items[..i])
      invariant forall key :: key in seen <==> HasText(out, key)
    {
      assert items[..i + 1][..i] == items[..i];
      var text := Trim(items[i].text);
      if text == "" {
        continue;
      }
      var key := ToLower(text);
      TrimIdempotent(items[i].text);
      if key in seen {
        continue;
      }
      HasTextAppend(out, TaskItem(text, items[i].done));
      seen := seen + {key};
      out := out + [TaskItem(text, items[i].done)];
    }
    assert items[..|items|] == items;
  }

  function MergeTask(order: seq<TaskItem>, it: TaskItem): seq<TaskItem> {
    var key := KeyOf(it.text);
    var i := KeyPlaces.LastPlace(TextKey, order, key);
    if key == "" then order else if i < |order| then order[i := it] else order + [it]
  }

  function WithText(items: seq<TaskItem>): seq<TaskItem> {
    if items == [] then []
    else
      var before, it := WithText(items[..|items| - 1]), items[|items| - 1];
      if KeyOf(it.text) == "" then before else before + [it]
  }

  function MergeOnto(existing: seq<TaskItem>, incoming: seq<TaskItem>): seq<TaskItem> {
    if incoming == [] then WithText(existing)
    else MergeTask(MergeOnto(existing, incoming[..|incoming| - 1]), incoming[|incoming| - 1])
  }

  function Merge(existing: seq<TaskItem>, incoming: seq<TaskItem>): seq<TaskItem> {
    if incoming == [] then existing else MergeOnto(existing, incoming)
  }

  method MergeTasks(existing: seq<TaskItem>, incoming: seq<TaskItem>) returns (order: seq<TaskItem>)
    ensures order == Merge(existing, incoming)
  {
    if incoming == [] {
      return existing;
    }
    order := [];
    var index: map<string, nat> := map[];
    for i := 0 to |existing|
      invariant order == WithText(existing[..i]) && KeyPlaces.Indexes(TextKey, index, order)
    {
      assert existing[..i + 1][..i] == existing[..i];
      var key := KeyOf(existing[i].text);
      if key == "" {
        continue;
      }
      KeyPlaces.IndexesAppended(TextKey, index, order, existing[i]);
      index := index[key := |order|];
      order := order + [existing[i]];
    }
    assert existing[..|existing|] == existing;
    for i := 0 to |incoming|
      invariant order == MergeOnto(existing, incoming[..i]) && KeyPlaces.Indexes(TextKey, index, order)
    {
      assert incoming[..i + 1][..i] == incoming[..i];
      var it := incoming[i];
      var key := KeyOf(it.text);
      KeyPlaces.IndexesAt(TextKey, index, order, key);
      if key == "" {
        continue;
      }
      if key in index {
        KeyPlaces.IndexesReplaced(TextKey, index, order, index[key], it);
        order := order[index[key] := it];
        continue;
      }
      KeyPlaces.IndexesAppended(TextKey, index, order, it);
      index := index[key := |order|];
      order := order + [it];
    }
    assert incoming[..|incoming|] == incoming;
  }

  /** Tasks with a text on one line, no two alike. */
  predicate Distinct(items: seq<TaskItem>) {
    && (forall k :: 0 <= k < |items| ==> SingleLine(Trim(items[k].text)))
    && (forall k :: 0 <= k < |items| ==> KeyOf(items[k].text) != "")
    && (forall i, j :: 0 <= i < j < |items| ==> KeyOf(items[i].text) != KeyOf(items[j].text))
  }

  lemma {:induction false} WithTextIdle(items: seq<TaskItem>)
    requires Distinct(items)
    ensures WithText(items) == items
  {
    if items != [] {
      WithTextIdle(items[..|items| - 1]);
      MemoryLines.SplitLast(items);
    }
  }

  lemma MergeTaskDistinct(order: seq<TaskItem>, it: TaskItem)
    requires Distinct(order) && SingleLine(Trim(it.text))
    ensures Distinct(MergeTask(order, it))
  {
  }

  lemma {:induction false} MergeIsDistinct(existing: seq<TaskItem>, incoming: seq<TaskItem>)
    requires Distinct(existing) && forall k :: 0 <= k < |incoming| ==> SingleLine(Trim(incoming[k].text))
    ensures Distinct(MergeOnto(existing, incoming)) && Distinct(Merge(existing, incoming))
  {
    if incoming == [] {
      WithTextIdle(existing);
    } else {
      var n := |incoming| - 1;
      MergeIsDistinct(existing, incoming[..n]);
      MergeTaskDistinct(MergeOnto(existing, incoming[..n]), incoming[n]);
    }
  }

  lemma {:induction false} NormalizeKeepsLines(items: seq<TaskItem>)
    requires forall k :: 0 <= k < |items| ==> SingleLine(Trim(items[k].text))
    ensures forall k :: 0 <= k < |Normalize(items)| ==> SingleLine(Trim(Normalize(items)[k].text))
  {
    if items != [] {
      NormalizeKeepsLines(items[..|items| - 1]);
      TrimIdempotent(items[|items| - 1].text);
    }
  }

  // ---- marking tasks done ----

  function MarkDone(items: seq<TaskItem>, updates: set<string>): seq<TaskItem> {
    seq(|items|, i requires 0 <= i < |items| =>
      if Trim(items[i].text) != "" && KeyOf(items[i].text) in updates then items[i].(done := true) else items[i])
  }

  method UpdateTaskList(tasks: seq<TaskItem>, updates: set<string>) returns (out: seq<TaskItem>, changed: bool)
    ensures out == MarkDone(tasks, updates)
    ensures changed <==> out != tasks
  {
    out, changed := tasks, false;
    if updates == {} {
      assert MarkDone(tasks, updates) == tasks;
      return;
    }
    for i := 0 to |tasks|
      invariant |out| == |tasks| && (changed <==> out != tasks)
      invariant forall j :: 0 <= j < i ==> out[j] == MarkDone(tasks, updates)[j]
      invariant forall j :: i <= j < |tasks| ==> out[j] == tasks[j]
    {
      var text := Trim(tasks[i].text);
      if text == "" {
        continue;
      }
      if ToLower(text) in updates && !tasks[i].done {
        out := out[i := tasks[i].(done := true)];
        assert out[i] != tasks[i];
        changed := true;
      }
    }
  }

  lemma MarkKeepsDistinct(items: seq<TaskItem>, updates: set<string>)
    requires Distinct(items)
    ensures Distinct(MarkDone(items, updates))
  {
  }

  // ---- the index agrees with the body ----

  /** The indexed fields of the frontmatter. */
  datatype Front = Front(summary: string, tasks: string, followUps: string)

  /** The ratios written beside a body. */
  function IndexOf(c: Content, summary: string): Front {
    Front(summary, FormatRatio(CountTasks(c.tasks)), FormatRatio(CountTasks(c.followUps)))
  }

  /** The body can be read, and what the ratios claim is what reading it counts. */
  predicate Agrees(fm: Front, body: string) {
    && Read(body).Some?
    && ParseRatio(fm.tasks) == Some(CountTasks(Read(body).value.tasks)) && Trim(fm.tasks) != ""
    && ParseRatio(fm.followUps) == Some(CountTasks(Read(body).value.followUps)) && Trim(fm.followUps) != ""
  }

  lemma {:induction false} CountShown(items: seq<TaskItem>)
    ensures CountTasks(ShownTasks(items)) == CountTasks(items)
  {
    if items != [] {
      var n := |items| - 1;
      CountShown(items[..n]);
      var shown := ShownTasks(items[..n]);
      if Trim(items[n].text) == "" {
        assert ShownTasks(items) == shown;
      } else {
        assert ShownTasks(items) == shown + [TaskItem(Trim(items[n].text), items[n].done)];
        TrimIdempotent(items[n].text);
        CountAppend(shown, TaskItem(Trim(items[n].text), items[n].done));
      }
    }
  }

  lemma CountAppend(items: seq<TaskItem>, it: TaskItem)
    ensures CountTasks(items + [it])
         == var before := CountTasks(items);
            if Trim(it.text) == "" then before
            else Counts(before.done + (if it.done then 1 else 0), before.total + 1)
  {
    assert (items + [it])[..|items|] == items;
  }

  /** A shown task and where it comes from. */
  predicate ShownAs(it: TaskItem, shown: TaskItem) {
    CleanText(shown.text) && KeyOf(shown.text) == KeyOf(it.text)
  }

  predicate Showable(it: TaskItem) {
    KeyOf(it.text) != "" && SingleLine(Trim(it.text))
  }

  predicate AllShowable(items: seq<TaskItem>) {
    forall k :: 0 <= k < |items| ==> Showable(items[k])
  }

  lemma {:induction false} ShownSize(items: seq<TaskItem>)
    requires AllShowable(items)
    ensures |ShownTasks(items)| == |items|
  {
    if items != [] {
      ShownSize(items[..|items| - 1]);
      ShownTaskIs(items[|items| - 1]);
    }
  }

  lemma ShownNext(items: seq<TaskItem>, it: TaskItem)
    requires items != [] && ShownTask(items[|items| - 1]) == [it]
    ensures ShownTasks(items) == ShownTasks(items[..|items| - 1]) + [it]
  {
  }

  lemma LastShown(items: seq<TaskItem>)
    requires items != [] && AllShowable(items)
    ensures var n := |items| - 1;
      && |ShownTasks(items)| == n + 1 && ShownTasks(items)[..n] == ShownTasks(items[..n])
      && ShownAs(items[n], ShownTasks(items)[n])
  {
    var n := |items| - 1;
    ShownSize(items[..n]);
    ShownTaskIs(items[n]);
    ShownNext(items, ShownTask(items[n])[0]);
  }

  lemma {:induction false} ShownAt(items: seq<TaskItem>, shown: seq<TaskItem>, k: nat)
    requires AllShowable(items) && shown == ShownTasks(items) && k < |items|
    ensures |shown| == |items| && ShownAs(items[k], shown[k])
    decreases |items|
  {
    var n := |items| - 1;
    LastShown(items);
    if k < n {
      ShownAt(items[..n], shown[..n], k);
    }
  }

  lemma DistinctShown(items: seq<TaskItem>)
    requires Distinct(items)
    ensures GoodTasks(ShownTasks(items))
  {
    forall k | 0 <= k < |items| ensures Showable(items[k]) {
    }
    ShownSize(items);
    forall k | 0 <= k < |items| ensures ShownAs(items[k], ShownTasks(items)[k]) {
      ShownAt(items, ShownTasks(items), k);
    }
  }

  lemma ShownTaskIs(it: TaskItem)
    requires Showable(it)
    ensures |ShownTask(it)| == 1 && CleanText(ShownTask(it)[0].text) && KeyOf(ShownTask(it)[0].text) == KeyOf(it.text)
  {
    var i, j := TrimParts(it.text);
    TrimIdempotent(it.text);
  }

  predicate SingleEntries(es: seq<Entry>) {
    forall k :: 0 <= k < |es| ==> SingleLine(es[k].title)
  }

  predicate SingleLink(it: LinkItem) {
    SingleLine(it.text) && SingleLine(it.target)
  }

  predicate SingleLinks(items: seq<LinkItem>) {
    forall k :: 0 <= k < |items| ==> SingleLink(items[k])
  }

  /** Titles and links on one line each. */
  predicate OneLine(c: Content) {
    && SingleEntries(Entries(c.summary, Topics)) && SingleEntries(Entries(c.facts, Facts))
    && SingleLinks(ShownLinks(c.links))
  }

  lemma OneLineIsLoose(c: Content)
    requires OneLine(c) && Distinct(c.tasks) && Distinct(c.followUps)
    ensures Loose(Show(c))
  {
    EntriesAreShaped(c.summary, Topics);
    EntriesAreShaped(c.facts, Facts);
    DistinctShown(c.tasks);
    DistinctShown(c.followUps);
    ShownLinksAreShaped(c.links);
    forall k | 0 <= k < |Show(c).summary| ensures LooseEntry(Show(c).summary[k]) {
      assert ShapedEntry(Show(c).summary[k], Topics);
    }
    forall k | 0 <= k < |Show(c).facts| ensures LooseEntry(Show(c).facts[k]) {
      assert ShapedEntry(Show(c).facts[k], Facts);
    }
  }

  /** Tasks that are printed and read again count the same. */
  lemma CountBack(items: seq<TaskItem>)
    requires Distinct(items)
    ensures CountTasks(ParseTodo(ReadTasks(ShownTasks(items)))) == CountTasks(items)
  {
    DistinctShown(items);
    TodoBack(ShownTasks(items));
    CountShown(items);
  }

  /** A body without lines that panic, whose to-do sections count like the content. */
  lemma AgreesIf(body: string, c: Content, summary: string)
    requires ParseLinks(Section(CleanLines(body), RELATED_LINKS)).Some?
    requires CountTasks(ParseTodo(Section(CleanLines(body), TASKS))) == CountTasks(c.tasks)
    requires CountTasks(ParseTodo(Section(CleanLines(body), FOLLOW_UPS))) == CountTasks(c.followUps)
    ensures Agrees(IndexOf(c, summary), body)
  {
    RatioBack(CountTasks(c.tasks));
    RatioBack(CountTasks(c.followUps));
  }

  /** Writing a body with its ratios: they agree. */
  lemma IndexAgrees(date: string, c: Content, summary: string)
    requires SingleLine(date) && OneLine(c) && Distinct(c.tasks) && Distinct(c.followUps)
    ensures Agrees(IndexOf(c, summary), Build(date, c))
  {
    OneLineIsLoose(c);
    SectionsBack(date, c);
    CountBack(c.tasks);
    CountBack(c.followUps);
    PrintedLinksRead(ShownLinks(c.links));
    AgreesIf(Build(date, c), c, summary);
  }

  // ---- what is read from a file stays on its lines ----

  lemma AfterColonSingle(s: string)
    requires SingleLine(s)
    ensures SingleLine(AfterColon(s))
  {
    TrimOfSingleLine(s);
    var t := Trim(s);
    if HasPrefix(t, ":") {
      TrimOfSingleLine(t[1..]);
    }
  }

  lemma BoldRestSingle(rest: string)
    requires SingleLine(rest)
    ensures BoldRest(rest).Some? ==> SingleLine(BoldRest(rest).value.0)
  {
    var end := Index(rest, BOLD);
    if end >= 0 {
      TrimOfSingleLine(rest[..end]);
      AfterColonSingle(rest[end + 2..]);
    }
  }

  lemma NumberedRestSingle(rest: string)
    requires SingleLine(rest)
    ensures NumberedRest(rest).Some? ==> SingleLine(NumberedRest(rest).value.0)
  {
    if HasPrefix(rest, BOLD) {
      BoldRestSingle(rest[2..]);
    } else if HasPrefix(ToLower(rest), TOPIC) {
      AfterColonSingle(rest[|TOPIC|..]);
    } else {
      var colon := Index(rest, ":");
      TrimOfSingleLine(if colon < 0 then rest else rest[..colon]);
    }
  }

  lemma NumberedSingle(line: string)
    requires SingleLine(line)
    ensures ParseNumberedKVLine(line).Some? ==> SingleLine(ParseNumberedKVLine(line).value.0)
  {
    var dot := Index(line, ".");
    if dot > 0 {
      var rest := line[dot + 1..];
      TrimOfSingleLine(rest);
      NumberedRestSingle(Trim(rest));
    }
  }

  lemma KVLineSingle(line: string)
    requires SingleLine(line)
    ensures ParseKVLine(line).Some? ==> SingleLine(ParseKVLine(line).value.title)
  {
    if HasPrefix(line, KV_MARK) {
      var rest := line[|KV_MARK|..];
      var i := Index(rest, BOLD);
      if i >= 0 {
        TrimOfSingleLine(rest[..i]);
      }
    }
  }

  predicate SingleTitles(items: seq<KVItem>) {
    forall k :: 0 <= k < |items| ==> SingleLine(items[k].title)
  }

  predicate SingleReading(r: Reading) {
    SingleTitles(r.items) && SingleLine(r.title)
  }

  lemma FlushSingle(r: Reading)
    requires SingleReading(r)
    ensures SingleReading(Flush(r))
  {
    TrimOfSingleLine(r.title);
  }

  lemma ReadLineSingle(r: Reading, line: string)
    requires SingleReading(r) && SingleLine(line)
    ensures SingleReading(ReadLine(r, line))
  {
    FlushSingle(r);
    NumberedSingle(line);
    KVLineSingle(line);
  }

  lemma {:induction false} ReadLinesSingle(lines: seq<string>)
    requires SingleLines(lines)
    ensures SingleReading(ReadLines(lines))
  {
    if lines != [] {
      ReadLinesSingle(lines[..|lines| - 1]);
      ReadLineSingle(ReadLines(lines[..|lines| - 1]), lines[|lines| - 1]);
    }
  }

  lemma {:induction false} FirstTitlesSingle(items: seq<KVItem>)
    requires SingleTitles(items)
    ensures SingleTitles(FirstTitles(items))
  {
    if items != [] {
      FirstTitlesSingle(items[..|items| - 1]);
    }
  }

  lemma {:induction false} EntriesSingle(items: seq<KVItem>, kind: Kind)
    requires SingleTitles(items)
    ensures SingleEntries(Entries(items, kind))
  {
    if items != [] {
      EntriesSingle(items[..|items| - 1], kind);
      TrimOfSingleLine(items[|items| - 1].title);
      assert SingleLine(DEFAULT_TITLE);
    }
  }

  lemma SectionIsSingle(body: string, name: string)
    ensures SingleLines(Section(CleanLines(body), name))
  {
    SectionIsClean(body, name);
    var lines := Section(CleanLines(body), name);
    forall k | 0 <= k < |lines| ensures SingleLine(lines[k]) {
      assert lines[k] in lines;
    }
  }

  lemma ParsedTitles(body: string, name: string, kind: Kind)
    ensures SingleEntries(Entries(ParseKV(Section(CleanLines(body), name)), kind))
  {
    var lines := Section(CleanLines(body), name);
    SectionIsSingle(body, name);
    ReadLinesSingle(lines);
    FlushSingle(ReadLines(lines));
    FirstTitlesSingle(Flush(ReadLines(lines)).items);
    EntriesSingle(ParseKV(lines), kind);
  }

  lemma TodoLineSingle(line: string)
    requires SingleLine(line)
    ensures ParseTodoLine(line).Some? ==> SingleLine(Trim(ParseTodoLine(line).value.text))
  {
    if HasPrefix(line, TODO_MARK) {
      var rest := line[|TODO_MARK|..];
      var i := Index(rest, "]");
      if i >= 0 {
        TrimOfSingleLine(rest[i + 1..]);
        TrimOfSingleLine(Trim(rest[i + 1..]));
      }
    }
  }

  lemma {:induction false} ParsedTasksDistinct(lines: seq<string>)
    requires SingleLines(lines)
    ensures Distinct(ParseTodo(lines))
  {
    if lines != [] {
      var n := |lines| - 1;
      ParsedTasksDistinct(lines[..n]);
      TodoLineSingle(lines[n]);
      AddedTaskDistinct(ParseTodo(lines[..n]), ParseTodoLine(lines[n]));
    }
  }

  lemma AddedTaskDistinct(items: seq<TaskItem>, item: Option<TaskItem>)
    requires Distinct(items) && (item.Some? ==> SingleLine(Trim(item.value.text)))
    ensures Distinct(AddTodo(items, item))
  {
  }

  lemma LinkLineSingle(line: string)
    requires SingleLine(line)
    ensures ParseLinkLine(line).Link? ==> SingleLink(ParseLinkLine(line).it)
  {
    var start, mid, end := Index(line, "["), Index(line, "]("), LastIndex(line, ")");
    if 0 <= start < mid && mid + 1 < end {
      TrimOfSingleLine(line[start + 1..mid]);
      TrimOfSingleLine(line[mid + 2..end]);
    }
  }

  lemma {:induction false} ParsedLinksSingle(lines: seq<string>)
    requires SingleLines(lines)
    ensures ParseLinks(lines).Some? ==> SingleLinks(ParseLinks(lines).value)
  {
    if lines != [] {
      ParsedLinksSingle(lines[..|lines| - 1]);
      LinkLineSingle(lines[|lines| - 1]);
    }
  }

  lemma {:induction false} ShownLinksSingle(items: seq<LinkItem>)
    requires SingleLinks(items)
    ensures SingleLinks(ShownLinks(items))
  {
    if items != [] {
      ShownLinksSingle(items[..|items| - 1]);
      TrimOfSingleLine(items[|items| - 1].text);
      TrimOfSingleLine(items[|items| - 1].target);
    }
  }

  lemma ParsedTasks(body: string, name: string)
    ensures Distinct(ParseTodo(Section(CleanLines(body), name)))
  {
    SectionIsSingle(body, name);
    ParsedTasksDistinct(Section(CleanLines(body), name));
  }

  lemma ParsedLinks(body: string, name: string)
    ensures var links := ParseLinks(Section(CleanLines(body), name));
      links.Some? ==> SingleLinks(ShownLinks(links.value))
  {
    var links := ParseLinks(Section(CleanLines(body), name));
    SectionIsSingle(body, name);
    ParsedLinksSingle(Section(CleanLines(body), name));
    if links.Some? {
      ShownLinksSingle(links.value);
    }
  }

  /** Whatever a file holds, what is read from it can be written back without overflowing its
      lines. */
  lemma ParsedIsOneLine(body: string, c: Content)
    requires Read(body) == Some(c)
    ensures OneLine(c) && Distinct(c.tasks) && Distinct(c.followUps)
  {
    ParsedTitles(body, SESSION_SUMMARY, Topics);
    ParsedTitles(body, TEMPORARY_FACTS, Facts);
    ParsedTasks(body, TASKS);
    ParsedTasks(body, FOLLOW_UPS);
    ParsedLinks(body, RELATED_LINKS);
  }

  // ---- restating the status of tasks ----

  /** The content UpdateRecentTaskStatuses writes. */
  function Restated(existing: Content, updates: set<string>): Content {
    existing.(tasks := MarkDone(existing.tasks, updates), followUps := MarkDone(existing.followUps, updates))
  }

  /** Main result: after any UpdateRecentTaskStatuses, on any file that can be read, the body
      written can be read again and the ratios are the counts read from it. */
  lemma RestatusKeepsIndex(date: string, before: string, existing: Content, updates: set<string>, line: string)
    requires SingleLine(date) && Read(before) == Some(existing)
    ensures var c := Restated(existing, updates); Agrees(IndexOf(c, line), Build(date, c))
  {
    ParsedIsOneLine(before, existing);
    MarkKeepsDistinct(existing.tasks, updates);
    MarkKeepsDistinct(existing.followUps, updates);
    IndexAgrees(date, Restated(existing, updates), line);
  }

  // ---- the readers of the index ----

  predicate Pending(c: Counts) {
    c.total > c.done
  }

  /** pendingFromFrontmatter: whether tasks are pending, if any ratio can be read. */
  function PendingFromFrontmatter(fm: Front): Option<bool> {
    var t, f := ParseRatio(fm.tasks), ParseRatio(fm.followUps);
    if t.None? && f.None? then None
    else Some((t.Some? && Pending(t.value)) || (f.Some? && Pending(f.value)))
  }

  /** None when reading the body panics. */
  function PendingInBody(body: string): Option<bool> {
    match Read(body)
    case None => None
    case Some(c) => Some(Pending(CountTasks(c.tasks)) || Pending(CountTasks(c.followUps)))
  }

  /** hasPendingTasks: only a frontmatter without ratios sends it to the body. */
  function HasPendingTasks(fm: Front, body: string): Option<bool> {
    if PendingFromFrontmatter(fm).Some? then PendingFromFrontmatter(fm) else PendingInBody(body)
  }

  function BodyCounters(body: string): Option<(Counts, Counts)> {
    match Read(body)
    case None => None
    case Some(c) => Some((CountTasks(c.tasks), CountTasks(c.followUps)))
  }

  /** The counters LoadShortTermSummaries reports: from the body when the summary or a ratio is
      missing, from the ratios otherwise. */
  function SummaryCounters(fm: Front, body: string): Option<(Counts, Counts)> {
    if Trim(fm.summary) == "" || Trim(fm.tasks) == "" || Trim(fm.followUps) == "" then BodyCounters(body)
    else Some((ParseRatio(fm.tasks).GetOr(Counts(0, 0)), ParseRatio(fm.followUps).GetOr(Counts(0, 0))))
  }

  /** Main result: where the index agrees, the readers answer the same from either source. */
  lemma ReadersAgree(fm: Front, body: string)
    requires Agrees(fm, body)
    ensures HasPendingTasks(fm, body) == PendingInBody(body) && PendingInBody(body).Some?
    ensures SummaryCounters(fm, body) == BodyCounters(body)
  {
  }
}
