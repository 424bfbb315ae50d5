/** The long-term memory file over many updates (memory/update.go:228-262, memory/merge.go:71-82). */
module LongTermRuns {
  import opened Wrappers
  import opened Text
  import opened MemorySections
  import MemoryLines
  import opened MemoryItems
  import KeyPlaces
  import opened LongTerm
  import opened LongTermMerge

  // UpdateLongTerm reads the file, merges, enforces the limits and writes; what becomes of a
  // stamp is decided by what the written value is read as.

  // ---- one update of the file ----

  /** What is promoted to long-term memory, and the day; "" when there is no time. */
  datatype Update = Update(goals: seq<KVItem>, facts: seq<KVItem>, date: string)

  /** MergeLongTerm */
  function Merge(c: Content, u: Update): Content {
    Content(MergeKV(c.goals, Normalize(u.goals), u.date), MergeKV(c.facts, Normalize(u.facts), u.date))
  }

  /** The fewest drops that bring the content within the limits. */
  ghost predicate Fewest(c: Content, n: nat) {
    WithinLimits(Dropped(c, n)) && NotBefore(c, n)
  }

  /** What an update makes of the file: read, merge, enforce the limits, and write the result
      with the to-do sections behind it. Nothing is written when nothing is promoted. */
  ghost predicate Writes(before: string, u: Update, after: string) {
    if u.goals == [] && u.facts == [] then after == before
    else
      exists n :: Fewest(Merge(Parse(before), u), n) && after == Rewrite(before, Dropped(Merge(Parse(before), u), n))
  }

  method UpdateLongTerm(file: string, u: Update) returns (out: string, written: bool)
    ensures Writes(file, u, out)
    ensures written <==> u.goals != [] || u.facts != []
  {
    if u.goals == [] && u.facts == [] {
      return file, false;
    }
    var content := ParseLongTermContent(file);
    var incomingGoals := NormalizeKVItems(u.goals);
    var incomingFacts := NormalizeKVItems(u.facts);
    var goals := MergeLongTermKV(content.goals, incomingGoals, u.date);
    var facts := MergeLongTermKV(content.facts, incomingFacts, u.date);
    ghost var n;
    content, n := EnforceLongTermLimits(Content(goals, facts));
    assert Fewest(Merge(Parse(file), u), n);
    out := RewriteBody(file, content);
    written := true;
  }

  // ---- the stamp of an item that is written ----

  function ListOf(c: Content, goals: bool): seq<KVItem> {
    if goals then c.goals else c.facts
  }

  /** Main result, for one file: an item of the written content is read with exactly the stamp
      of the first line of its value, if its title comes back and the lines behind the values
      before it open nothing. So a stamp on a further line is lost. */
  lemma WrittenStamp(old_: string, c: Content, goals: bool, i: nat)
    requires i < |ListOf(c, goals)| && GoodTitles(ListOf(c, goals)) && TameItems(ListOf(c, goals)[..i])
    requires goals || TameItems(c.goals)
    ensures var it := ListOf(c, goals)[i];
      StampUnder(ListOf(Parse(Rewrite(old_, c)), goals), KeyOf(it.title)) == StampOf(FirstLineOf(it.value))
  {
    var back := ListOf(Parse(Rewrite(old_, c)), goals);
    if goals {
      GoalRead(old_, c, i);
    } else {
      FactRead(old_, c, i);
    }
    ParsedIsUnique(Section(CleanLines(Rewrite(old_, c)), if goals then LONG_GOALS else LONG_FACTS));
    KeyPlaces.LastPlaceIs(TitleKey, back, KeyOf(back[i].title), i);
  }

  /** The condition on the values before it is needed: a further line that reads as an item
      takes that item's key, and its stamp, from every later item. */
  lemma FurtherLineTakesKey(old_: string, c: Content, i: nat, it: KVItem)
    requires i < |c.goals| && CleanTitles(c.goals) && TameItems(c.goals[..i]) && GoodTitle(c.goals[i].title)
    requires GoodItem(it) && UniqueTitles(c.goals[..i] + [c.goals[i]] + [it])
    requires RestLines(c.goals[i].value) != [] && RestLines(c.goals[i].value)[0] == ReadItem(it.title, it.value)
    ensures StampUnder(Parse(Rewrite(old_, c)).goals, KeyOf(it.title)) == StampOf(it.value)
  {
    var back := Parse(Rewrite(old_, c)).goals;
    FurtherLineIsItem(old_, c, i, it);
    ParsedIsUnique(Section(CleanLines(Rewrite(old_, c)), LONG_GOALS));
    KeyPlaces.LastPlaceIs(TitleKey, back, KeyOf(it.title), i + 1);
  }

  lemma FurtherLineIsItem(old_: string, c: Content, i: nat, it: KVItem)
    requires i < |c.goals| && CleanTitles(c.goals) && TameItems(c.goals[..i]) && GoodTitle(c.goals[i].title)
    requires GoodItem(it) && UniqueTitles(c.goals[..i] + [c.goals[i]] + [it])
    requires RestLines(c.goals[i].value) != [] && RestLines(c.goals[i].value)[0] == ReadItem(it.title, it.value)
    ensures var back := Parse(Rewrite(old_, c)).goals; i + 1 < |back| && back[i + 1] == it
  {
    var first := ReadAs(c.goals[i]);
    var items := c.goals[..i] + [first];
    var more := UpToFurtherLine(old_, c, i, it);
    OneLineValue(it.value);
    FirstLineIsGood(c.goals[i].value);
    ReadOneMore(c.goals[..i], first);
    SameTitlesUnique(c.goals[..i], c.goals[i], first, it);
    OpensGoals(items, it, more);
    GoalsOf(Rewrite(old_, c), items, it);
  }

  lemma GoalsOf(file: string, items: seq<KVItem>, it: KVItem)
    requires GoodValue(it.value)
    requires FirstLines(items) + [ReadAs(it)] <= ParseKV(Section(CleanLines(file), LONG_GOALS))
    ensures var back := Parse(file).goals; |items| < |back| && back[|items|] == it
  {
    OneLineValue(it.value);
    LastOf(FirstLines(items), ReadAs(it), Parse(file).goals);
  }

  lemma UpToFurtherLine(old_: string, c: Content, i: nat, it: KVItem) returns (more: seq<string>)
    requires i < |c.goals| && CleanTitles(c.goals) && TameItems(c.goals[..i]) && GoodTitle(c.goals[i].title)
    requires RestLines(c.goals[i].value) != [] && RestLines(c.goals[i].value)[0] == ReadItem(it.title, it.value)
    ensures CleanLines(Rewrite(old_, c))
         == [TITLE] + [MemoryLines.Header(LONG_GOALS)]
            + (AllRead(c.goals[..i] + [ReadAs(c.goals[i])]) + [ReadItem(it.title, it.value)]) + more
  {
    var first := ReadAs(c.goals[i]);
    var after := UpToGoal(old_, c, i);
    FirstLineIsGood(c.goals[i].value);
    ReadOneMore(c.goals[..i], first);
    PrefixSplit([ReadItem(it.title, it.value)], after);
    more := after[1..];
    Regrouped([TITLE] + [MemoryLines.Header(LONG_GOALS)], AllRead(c.goals[..i] + [first]),
              [ReadItem(it.title, it.value)], more);
  }

  lemma ReadOneMore(items: seq<KVItem>, it: KVItem)
    requires TameItems(items) && GoodItem(it)
    ensures AllRead(items + [it]) == AllRead(items) + [ReadItem(it.title, it.value)] && TameItems(items + [it])
  {
    AllReadNext(items, it);
    OneLineValue(it.value);
    TameNext(items, it);
  }

  lemma TameNext(items: seq<KVItem>, it: KVItem)
    requires TameItems(items) && TameItem(it)
    ensures TameItems(items + [it])
  {
  }

  lemma OpensGoals(items: seq<KVItem>, it: KVItem, more: seq<string>)
    requires TameItems(items) && GoodTitle(it.title) && UniqueTitles(items + [it])
    ensures var read := AllRead(items) + [ReadItem(it.title, FirstLineOf(it.value))];
      var lines := Section([TITLE] + [MemoryLines.Header(LONG_GOALS)] + read + more, LONG_GOALS);
      FirstLines(items) + [ReadAs(it)] <= ParseKV(lines)
  {
    NamesAreClean();
    TitleReads();
    PreambleSection([TITLE], LONG_GOALS);
    NextItemRead([TITLE], LONG_GOALS, items, it, more);
    FirstLinesNext(items, it);
  }

  lemma Regrouped<T>(a: seq<T>, b: seq<T>, c: seq<T>, d: seq<T>)
    ensures a + b + (c + d) == a + (b + c) + d
  {
  }

  lemma SameTitlesUnique(items: seq<KVItem>, old_: KVItem, new_: KVItem, it: KVItem)
    requires UniqueTitles(items + [old_] + [it]) && new_.title == old_.title
    ensures UniqueTitles(items + [new_] + [it])
  {
    var a, b := items + [old_] + [it], items + [new_] + [it];
    assert forall k :: 0 <= k < |a| ==> a[k].title == b[k].title;
    forall i, j | 0 <= i < j < |b| ensures KeyOf(b[i].title) != KeyOf(b[j].title) {
      assert KeyOf(a[i].title) != KeyOf(a[j].title);
    }
  }

  // ---- values whose further lines stay quiet, with or without a stamp ----

  /** Digits and a full stop. */
  predicate Numbered(l: string) {
    var dot := Index(l, ".");
    dot > 0 && AllDigits(l[..dot])
  }

  /** A line that opens no item and no section, with or without a stamp behind it. */
  predicate QuietLine(l: string) {
    l != "" && !Numbered(l) && !HasPrefix(l, KV_MARK) && !IsHeader(l) && l + " " != HEADER
  }

  predicate QuietLines(lines: seq<string>) {
    forall k :: 0 <= k < |lines| ==> QuietLine(lines[k])
  }

  predicate QuietItem(it: KVItem) {
    GoodTitle(it.title) && QuietLines(RestLines(it.value))
  }

  predicate Quiet(items: seq<KVItem>) {
    forall k :: 0 <= k < |items| ==> QuietItem(items[k])
  }

  /** An update that brings titles their lines give back, and values whose further lines open
      no item and no section. */
  predicate QuietUpdate(u: Update) {
    Quiet(Normalize(u.goals)) && Quiet(Normalize(u.facts)) && (u.date == "" || IsDate(u.date))
  }

  lemma QuietIsInert(l: string)
    requires QuietLine(l)
    ensures Inert(l)
  {
  }

  lemma QuietIsTame(items: seq<KVItem>)
    requires Quiet(items)
    ensures TameItems(items)
  {
    forall k | 0 <= k < |items| ensures TameItem(items[k]) {
      assert QuietItem(items[k]);
      var rest := RestLines(items[k].value);
      forall j | 0 <= j < |rest| ensures Inert(rest[j]) {
        QuietIsInert(rest[j]);
      }
    }
  }

  lemma GoodIsQuiet(items: seq<KVItem>)
    requires GoodItems(items)
    ensures Quiet(items)
  {
    forall k | 0 <= k < |items| ensures QuietItem(items[k]) {
      assert GoodItem(items[k]);
      OneLineValue(items[k].value);
    }
  }

  /** What a stamp looks like from outside. */
  predicate Bracketed(s: string) {
    CleanText(s) && s[0] == '('
  }

  lemma QuietStays(l: string, s: string)
    requires QuietLine(l) && Bracketed(s)
    ensures QuietLine(l + " " + s)
  {
    var r := l + " " + s;
    assert r[0] == l[0] && r[|l|] == ' ' && r[|l| + 1] == '(';
    MarkIs(r);
    MarkIs(l);
    HeaderIsMarked(r);
    HeaderIsMarked(l);
    assert |l| == 2 && l[0] == '#' && l[1] == '#' ==> l + " " == HEADER;
    StillUnnumbered(l, s);
  }

  lemma HeaderIsMarked(l: string)
    ensures IsHeader(l) <==> |l| >= 3 && l[0] == '#' && l[1] == '#' && l[2] == ' '
  {
    if |l| >= 3 {
      assert l[..3] == [l[0], l[1], l[2]];
    }
  }

  lemma StillUnnumbered(l: string, s: string)
    requires !Numbered(l)
    ensures !Numbered(l + " " + s)
  {
    var r, dot := l + " " + s, Index(l, ".");
    forall k | 0 <= k < |l| ensures OccursAt(r, ".", k) <==> OccursAt(l, ".", k) {
      assert r[k..k + 1] == [r[k]] == [l[k]] == l[k..k + 1];
    }
    if dot >= 0 {
      IndexIs(r, ".", dot);
      assert r[..dot] == l[..dot];
    } else {
      assert r[|l|] == ' ';
      assert !OccursAt(r, ".", |l|);
      var d := Index(r, ".");
      assert d >= 0 ==> d > |l| && r[..d][|l|] == ' ';
    }
  }

  lemma MarkIs(l: string)
    ensures HasPrefix(l, KV_MARK) <==> |l| >= 4 && l[0] == '-' && l[1] == ' ' && l[2] == '*' && l[3] == '*'
  {
    if |l| >= 4 {
      assert l[..4] == [l[0], l[1], l[2], l[3]];
    }
  }

  /** Text that a stamp may stand behind. */
  predicate Closed(x: string) {
    x != "" && !IsSpace(x[|x| - 1])
  }

  lemma {:induction false} LastLineStamped(x: string, s: string)
    requires Closed(x) && Bracketed(s) && QuietLines(CleanLines(x))
    ensures QuietLines(CleanLines(x + " " + s))
    decreases |x|
  {
    var found, l, rest := FirstLine(x);
    if found {
      ClosedRest(x, l, rest);
      CleanLinesPiece(l, rest);
      CutQuiet(CleanLine(l), CleanLines(rest));
      LastLineStamped(rest, s);
      CutQuiet(CleanLine(l), CleanLines(rest + " " + s));
      CleanLinesPiece(l, rest + " " + s);
      BehindLine(l, rest, s);
    } else {
      OnlyLineStamped(x, s);
    }
  }

  lemma OnlyLineStamped(x: string, s: string)
    requires SingleLine(x) && Closed(x) && Bracketed(s) && QuietLines(CleanLines(x))
    ensures QuietLines(CleanLines(x + " " + s))
  {
    CleanLinesOfLine(x);
    CleanLinesOfLine(x + " " + s);
    StampedTrim(x, s);
    assert CleanLines(x)[0] == Trim(x);
    QuietStays(Trim(x), s);
  }

  lemma BehindLine(l: string, rest: string, s: string)
    ensures (l + "\n" + rest) + " " + s == l + "\n" + (rest + " " + s)
  {
  }

  lemma CutQuiet(a: seq<string>, b: seq<string>)
    ensures QuietLines(a + b) <==> QuietLines(a) && QuietLines(b)
  {
    assert forall k :: 0 <= k < |a| ==> (a + b)[k] == a[k];
    assert forall k :: 0 <= k < |b| ==> (a + b)[|a| + k] == b[k];
  }

  lemma StampedTrim(x: string, s: string)
    requires Closed(x) && CleanText(s)
    ensures Trim(x) != "" && Trim(x + " " + s) == Trim(x) + " " + s
    ensures CleanLine(x) == [Trim(x)] && CleanLine(x + " " + s) == [Trim(x) + " " + s]
  {
    var i, j := TrimParts(x);
    ClosedEnd(x, i, j);
    var core := Trim(x) + " " + s;
    assert core[0] == Trim(x)[0] && core[|core| - 1] == s[|s| - 1];
    TrimUnique(x[..i], core, "");
    assert x == x[..i] + Trim(x);
    assert x[..i] + core + "" == x + " " + s;
  }

  lemma ClosedEnd(x: string, i: nat, j: nat)
    requires Closed(x) && i <= j <= |x| && Blank(x[..i]) && Blank(x[j..])
    ensures i < j == |x|
  {
    assert forall k :: 0 <= k < i ==> x[k] == x[..i][k];
  }

  predicate SeveralLines(value: string) {
    !SingleLine(Trim(value))
  }

  lemma OneLineStamped(v: string, s: string)
    requires GoodValue(v) && v != "" && Bracketed(s)
    ensures GoodValue(v + " " + s)
  {
    var r := v + " " + s;
    assert r[0] == v[0] && r[|r| - 1] == s[|s| - 1];
  }

  /** A stamp behind several lines stands on the last of them. */
  lemma LastLineIsStamped(v: string, s: string)
    requires Trimmed(v) && !SingleLine(v) && Bracketed(s)
    ensures FirstLineOf(v + " " + s) == FirstLineOf(v)
    ensures QuietLines(RestLines(v)) ==> QuietLines(RestLines(v + " " + s))
  {
    var r := v + " " + s;
    var found, l, rest := FirstLine(v);
    assert r[0] == v[0] && r[|r| - 1] == s[|s| - 1];
    FirstLineAt(v, true, l, rest);
    BehindLine(l, rest, s);
    FirstLineAt(r, true, l, rest + " " + s);
    ClosedRest(v, l, rest);
    if QuietLines(RestLines(v)) {
      LastLineStamped(rest, s);
    }
  }

  lemma ClosedRest(v: string, l: string, rest: string)
    requires Closed(v) && v == l + "\n" + rest
    ensures Closed(rest)
  {
    assert v[|v| - 1] == (l + "\n" + rest)[|v| - 1];
  }

  /** What a brought value says about the stamp of its key: nothing, or the stamp its first line
      has. */
  function Says(brought: Option<string>): Option<Option<string>> {
    match brought
    case None => None
    case Some(w) => if SeveralLines(w) || StampOf(w).Some? then Some(StampOf(FirstLineOf(w))) else None
  }

  function Or<T>(a: Option<T>, b: T): T {
    match a case Some(x) => x case None => b
  }

  lemma OneLineSays(w: string)
    ensures !SeveralLines(w) ==> StampOf(FirstLineOf(w)) == StampOf(w)
  {
    var i, j := TrimParts(w);
    if !SeveralLines(w) {
      OneLineValue(Trim(w));
      RestOfTrimmed(w);
      StampOfTrimmed(w);
    }
  }

  lemma RestOfTrimmed(value: string)
    ensures RestLines(Trim(value)) == RestLines(value) && FirstLineOf(Trim(value)) == FirstLineOf(value)
  {
    TrimIdempotent(value);
  }

  lemma TrimmedSays(w: string)
    ensures Says(Some(Trim(w))) == Says(Some(w))
  {
    TrimIdempotent(w);
    RestOfTrimmed(w);
    StampOfTrimmed(w);
  }

  ghost predicate StampLine(stamp: Option<string>) {
    stamp.Some? ==> IsStamp(stamp.value) && SingleLine(stamp.value)
  }

  /** A value with its own or a given stamp, once it is written and read. */
  lemma StampedReads(value: string, stamp: Option<string>)
    requires Trimmed(value) && StampLine(stamp)
    ensures var r := WithStamp(value, stamp);
      && (QuietLines(RestLines(value)) ==> QuietLines(RestLines(r)))
      && StampOf(FirstLineOf(r)) == Or(Says(Some(value)), stamp)
  {
    OneLineSays(value);
    if StampOf(value).None? && stamp.Some? {
      AppendedReads(value, stamp.value);
      AppendedSays(value, stamp.value);
    }
  }

  lemma AppendedSays(value: string, s: string)
    requires Trimmed(value) && StampOf(value).None? && IsStamp(s) && SingleLine(s)
    ensures StampOf(FirstLineOf(AppendStamp(value, s))) == Or(Says(Some(value)), Some(s))
  {
    TrimIdle(value);
    AppendedReads(value, s);
    if SingleLine(value) {
      OneLineSays(AppendStamp(value, s));
      AppendedStamp(value, s);
    }
  }

  lemma AppendedReads(value: string, s: string)
    requires Trimmed(value) && StampOf(value).None? && IsStamp(s) && SingleLine(s)
    ensures var r := AppendStamp(value, s);
      if SingleLine(value) then !SeveralLines(r) && RestLines(r) == []
      else FirstLineOf(r) == FirstLineOf(value) && (QuietLines(RestLines(value)) ==> QuietLines(RestLines(r)))
  {
    StampIsTrimmed(s);
    StampShape(s);
    TrimIdle(s);
    TrimIdle(value);
    if value == "" {
      OneLineValue(s);
    } else if SingleLine(value) {
      OneLineStamped(value, s);
      OneLineValue(value + " " + s);
      TrimIdle(value + " " + s);
    } else {
      LastLineIsStamped(value, s);
    }
  }

  // ---- a merge into content that was read ----

  lemma StampIsPlain(value: string)
    requires SingleLine(value)
    ensures StampLine(StampOf(value))
  {
    var trimmed := Trim(value);
    TrimOfSingleLine(value);
    var i := LastIndex(ToLower(trimmed), STAMP);
    if i >= 0 {
      TrimOfSingleLine(trimmed[i..]);
    }
  }

  lemma DayStampIsPlain(date: string)
    requires date == "" || IsDate(date)
    ensures StampLine(DayStamp(date))
  {
    if date == "" {
      TrimIdle("");
    } else {
      DateStamp(date);
      assert IsDigit(date[0]) && IsDigit(date[9]);
      TrimIdle(date);
      assert SingleLine(STAMP) && SingleLine(date) && SingleLine(")");
    }
  }

  lemma {:induction false} StampForIsPlain(existing: seq<KVItem>, key: string)
    requires GoodItems(existing)
    ensures StampLine(StampFor(existing, key))
  {
    if existing != [] {
      var n := |existing| - 1;
      assert GoodItem(existing[n]);
      StampForIsPlain(existing[..n], key);
      StampIsPlain(existing[n].value);
    }
  }

  lemma StampedQuiet(value: string, stamp: Option<string>)
    requires QuietLines(RestLines(value)) && StampLine(stamp)
    ensures QuietLines(RestLines(WithStamp(Trim(value), stamp)))
  {
    var i, j := TrimParts(value);
    RestOfTrimmed(value);
    StampedReads(Trim(value), stamp);
  }

  lemma RestampedQuiet(old_: KVItem, stamp: Option<string>, it: KVItem)
    requires QuietItem(old_) && QuietItem(it) && StampLine(stamp)
    ensures QuietItem(Restamped(old_, stamp, it))
  {
    TrimIdle(it.title);
    StampedQuiet(it.value, stamp);
    StampedQuiet(old_.value, stamp);
  }

  lemma StampedItemQuiet(it: KVItem, date: string)
    requires QuietItem(it) && (date == "" || IsDate(date))
    ensures QuietItem(Stamped(it, date))
  {
    TrimIdle(it.title);
    DayStampIsPlain(date);
    StampedQuiet(it.value, DayStamp(date));
  }

  lemma MergeItemQuiet(existing: seq<KVItem>, order: seq<KVItem>, it: KVItem, date: string)
    requires GoodItems(existing) && Quiet(order) && QuietItem(it) && (date == "" || IsDate(date))
    ensures Quiet(MergeItem(existing, order, it, date))
  {
    var key := KeyOf(it.title);
    var i := KeyPlaces.LastPlace(TitleKey, order, key);
    if i < |order| {
      StampForIsPlain(existing, key);
      RestampedQuiet(order[i], StampFor(existing, key), it);
    } else {
      StampedItemQuiet(it, date);
    }
  }

  lemma {:induction false} MergeOntoQuiet(existing: seq<KVItem>, incoming: seq<KVItem>, date: string)
    requires GoodItems(existing) && Keyed(existing) && Quiet(incoming) && (date == "" || IsDate(date))
    ensures Quiet(MergeOnto(existing, incoming, date)) && Quiet(MergeKV(existing, incoming, date))
  {
    GoodIsQuiet(existing);
    if incoming == [] {
      WithTitleIdle(existing);
    } else {
      var n := |incoming| - 1;
      MergeOntoQuiet(existing, incoming[..n], date);
      MergeItemQuiet(existing, MergeOnto(existing, incoming[..n], date), incoming[n], date);
    }
  }

  /** The stamp of a key before an update; a new key starts with that of the day. */
  function Base(items: seq<KVItem>, key: string, date: string): Option<string> {
    if Present(items, key) then StampUnder(items, key) else DayStamp(date)
  }

  lemma NewValueReads(w: string, date: string)
    requires date == "" || IsDate(date)
    ensures StampOf(FirstLineOf(WithStamp(Trim(w), DayStamp(date)))) == Or(Says(Some(w)), DayStamp(date))
  {
    var i, j := TrimParts(w);
    DayStampIsPlain(date);
    StampedReads(Trim(w), DayStamp(date));
    TrimmedSays(w);
  }

  lemma OldValueReads(v: string, w: string)
    requires GoodValue(v)
    ensures StampOf(FirstLineOf(WithStamp(if Trim(w) == "" then Trim(v) else Trim(w), StampOf(v))))
         == Or(Says(Some(w)), StampOf(v))
  {
    var i, j := TrimParts(w);
    StampIsPlain(v);
    TrimIdle(v);
    TrimmedSays(w);
    if Trim(w) == "" {
      StampedReads(v, StampOf(v));
      NothingSays();
      OneLineSays(v);
    } else {
      StampedReads(Trim(w), StampOf(v));
    }
  }

  lemma NothingSays()
    ensures Says(Some("")) == None
  {
    TrimIdle("");
  }

  /** What becomes of a stamp when a merge is written and read. */
  lemma MergedStampReads(existing: seq<KVItem>, incoming: seq<KVItem>, date: string, key: string)
    requires GoodItems(existing) && Keyed(existing) && Keyed(incoming) && (date == "" || IsDate(date)) && key != ""
    requires Present(MergeKV(existing, incoming, date), key)
    ensures StampOf(FirstLineOf(ValueUnder(MergeKV(existing, incoming, date), key).value))
         == Or(Says(ValueUnder(incoming, key)), Base(existing, key, date))
  {
    var brought := ValueUnder(incoming, key);
    var i := KeyPlaces.LastPlace(TitleKey, existing, key);
    MergeKVValues(existing, incoming, date, key);
    if i < |existing| {
      assert GoodItem(existing[i]);
      if brought.Some? {
        OldValueReads(existing[i].value, brought.value);
      } else {
        OneLineValue(existing[i].value);
      }
    } else {
      NewValueReads(brought.value, date);
    }
  }

  // ---- the next file ----

  lemma SuffixKeyed(a: seq<KVItem>, b: seq<KVItem>)
    requires IsSuffix(a, b) && Keyed(b)
    ensures Keyed(a)
  {
    var d := |b| - |a|;
    assert forall k :: 0 <= k < |a| ==> a[k] == b[d + k];
  }

  lemma SuffixQuiet(a: seq<KVItem>, b: seq<KVItem>)
    requires IsSuffix(a, b) && Quiet(b)
    ensures Quiet(a)
  {
    var d := |b| - |a|;
    assert forall k :: 0 <= k < |a| ==> a[k] == b[d + k];
  }

  /** What a suffix still holds, it holds as it was. */
  lemma SuffixValue(a: seq<KVItem>, b: seq<KVItem>, key: string)
    requires IsSuffix(a, b) && Keyed(b) && Present(a, key)
    ensures Present(b, key) && ValueUnder(a, key) == ValueUnder(b, key)
  {
    var i, d := KeyPlaces.LastPlace(TitleKey, a, key), |b| - |a|;
    assert a[i] == b[d + i];
    KeyPlaces.LastPlaceIs(TitleKey, b, key, d + i);
  }

  lemma FirstLinesUnder(items: seq<KVItem>, key: string)
    ensures ValueUnder(FirstLines(items), key)
         == match ValueUnder(items, key) case None => None case Some(v) => Some(FirstLineOf(v))
  {
    KeyPlaces.LastPlaceIs(TitleKey, FirstLines(items), key, KeyPlaces.LastPlace(TitleKey, items, key));
  }

  lemma GoodIsKeyed(items: seq<KVItem>)
    requires GoodItems(items) && UniqueTitles(items)
    ensures Keyed(items)
  {
    GoodItemsKeys(items);
  }

  /** One list after a merge and any drops: quiet, keyed, and read with its stamps. */
  lemma ListStep(existing: seq<KVItem>, incoming: seq<KVItem>, date: string, left: seq<KVItem>, key: string)
    requires GoodItems(existing) && UniqueTitles(existing) && Quiet(incoming) && Keyed(incoming)
    requires (date == "" || IsDate(date)) && IsSuffix(left, MergeKV(existing, incoming, date))
    ensures TameItems(left) && UniqueTitles(left)
    ensures GoodItems(FirstLines(left)) && UniqueTitles(FirstLines(left))
    ensures key != "" && Present(FirstLines(left), key) ==>
      StampUnder(FirstLines(left), key) == Or(Says(ValueUnder(incoming, key)), Base(existing, key, date))
  {
    var merged := MergeKV(existing, incoming, date);
    GoodIsKeyed(existing);
    MergeOntoKeyed(existing, incoming, date);
    MergeOntoQuiet(existing, incoming, date);
    SuffixKeyed(left, merged);
    SuffixQuiet(left, merged);
    QuietIsTame(left);
    TameTitles(left);
    FirstLinesAreGood(left);
    if key != "" && Present(FirstLines(left), key) {
      FirstLinesUnder(left, key);
      SuffixValue(left, merged, key);
      MergedStampReads(existing, incoming, date, key);
    }
  }

  function ListIn(u: Update, goals: bool): seq<KVItem> {
    Normalize(if goals then u.goals else u.facts)
  }

  ghost predicate SameTodo(before: string, after: string) {
    && Section(CleanLines(after), TASKS) == Section(CleanLines(before), TASKS)
    && Section(CleanLines(after), FOLLOW_UPS) == Section(CleanLines(before), FOLLOW_UPS)
  }

  /** The stamp a key has in a file. */
  function StampIn(file: string, goals: bool, key: string): Option<string> {
    StampUnder(ListOf(Parse(file), goals), key)
  }

  predicate In(file: string, goals: bool, key: string) {
    Present(ListOf(Parse(file), goals), key)
  }

  /** Main result, for one update: the file stays one that reads well, keeps its to-do lines, and
      a key that is in it has the stamp the update says, or else the one it had, or else that
      of the day. */
  lemma UpdateStamps(before: string, u: Update, after: string, goals: bool, key: string)
    requires Good(Parse(before)) && QuietUpdate(u) && Writes(before, u, after)
    ensures Good(Parse(after)) && SameTodo(before, after)
    ensures key != "" && In(after, goals, key) ==>
      StampIn(after, goals, key)
      == Or(Says(ValueUnder(ListIn(u, goals), key)), Base(ListOf(Parse(before), goals), key, u.date))
  {
    if u.goals != [] || u.facts != [] {
      var c, merged := Parse(before), Merge(Parse(before), u);
      var n :| Fewest(merged, n) && after == Rewrite(before, Dropped(merged, n));
      var left := Dropped(merged, n);
      NormalizeIsKeyed(u.goals);
      NormalizeIsKeyed(u.facts);
      DroppedSuffix(merged, n);
      ListStep(c.goals, Normalize(u.goals), u.date, left.goals, key);
      ListStep(c.facts, Normalize(u.facts), u.date, left.facts, key);
      ReadBack(before, left);
    }
  }

  // ---- whole runs ----

  ghost predicate Step(before: string, u: Update, after: string) {
    QuietUpdate(u) && Writes(before, u, after)
  }

  /** Stages with one step between each and the next. */
  ghost predicate Steps<S, U>(stages: seq<S>, us: seq<U>, next: (S, U, S) -> bool) {
    |stages| == |us| + 1 && forall k :: 0 <= k < |us| ==> next(stages[k], us[k], stages[k + 1])
  }

  /** The file along a run of updates. */
  ghost predicate IsRun(files: seq<string>, us: seq<Update>) {
    Steps(files, us, Step) && Good(Parse(files[0]))
  }

  /** The file reads well, and has the to-do lines of the first one. */
  ghost predicate Sound(start: string, file: string) {
    Good(Parse(file)) && SameTodo(start, file)
  }

  /** What every step of a sequence keeps. */
  lemma {:induction false} Along<T>(stages: seq<T>, p: T -> bool, k: nat)
    requires k < |stages| && p(stages[0])
    requires forall i :: 0 <= i < |stages| - 1 && p(stages[i]) ==> p(stages[i + 1])
    ensures p(stages[k])
  {
    if k > 0 {
      Along(stages, p, k - 1);
    }
  }

  /** Over a run the file keeps reading well, and keeps its to-do lines. */
  lemma RunIsGood(files: seq<string>, us: seq<Update>, k: nat)
    requires IsRun(files, us) && k <= |us|
    ensures Good(Parse(files[k])) && SameTodo(files[0], files[k])
  {
    ghost var p := file => Sound(files[0], file);
    forall i | 0 <= i < |files| - 1 && p(files[i]) ensures p(files[i + 1]) {
      RunStep(files, us, i);
      NextIsGood(files[0], files[i], us[i], files[i + 1]);
    }
    Along(files, p, k);
  }

  lemma RunStep(files: seq<string>, us: seq<Update>, k: nat)
    requires IsRun(files, us) && k < |us|
    ensures Step(files[k], us[k], files[k + 1])
  {
  }

  lemma NextIsGood(start: string, before: string, u: Update, after: string)
    requires Sound(start, before) && Step(before, u, after)
    ensures Sound(start, after)
  {
    UpdateStamps(before, u, after, true, "");
  }

  /** What each update says about the stamp of a key. */
  function Brought(us: seq<Update>, goals: bool, key: string): seq<Option<Option<string>>> {
    seq(|us|, i requires 0 <= i < |us| => Says(ValueUnder(ListIn(us[i], goals), key)))
  }

  /** The last one that is there, or else the one at the start. */
  function LastOr<T>(start: T, later: seq<Option<T>>): T {
    if later == [] then start
    else Or(later[|later| - 1], LastOr(start, later[..|later| - 1]))
  }

  lemma {:induction false} LastOrFollows<T>(now: seq<T>, later: seq<Option<T>>, k: nat)
    requires |now| == |later| + 1 && k <= |later|
    requires forall i :: 0 <= i < k ==> now[i + 1] == Or(later[i], now[i])
    ensures now[k] == LastOr(now[0], later[..k])
  {
    if k > 0 {
      LastOrFollows(now, later, k - 1);
      assert later[..k][..k - 1] == later[..k - 1];
    }
  }

  /** The stamp of a key along a run. */
  function Stamps(files: seq<string>, goals: bool, key: string): seq<Option<string>> {
    seq(|files|, i requires 0 <= i < |files| => StampIn(files[i], goals, key))
  }

  /** The key stays in its list for the first k updates. */
  predicate Stays(files: seq<string>, goals: bool, key: string, k: nat) {
    k < |files| && forall i :: 0 <= i <= k ==> In(files[i], goals, key)
  }

  lemma StageFollows(files: seq<string>, us: seq<Update>, goals: bool, key: string, i: nat)
    requires IsRun(files, us) && i < |us| && key != "" && In(files[i], goals, key) && In(files[i + 1], goals, key)
    ensures StampIn(files[i + 1], goals, key)
         == Or(Says(ValueUnder(ListIn(us[i], goals), key)), StampIn(files[i], goals, key))
  {
    RunIsGood(files, us, i);
    RunStep(files, us, i);
    UpdateStamps(files[i], us[i], files[i + 1], goals, key);
  }

  /** Main result: over any run of updates of the file, while a key stays in its list its stamp
      is what the last value that said anything about it had on its first line, or else the one
      it started with. */
  lemma StampIsLastBrought(files: seq<string>, us: seq<Update>, goals: bool, key: string, k: nat)
    requires IsRun(files, us) && k <= |us| && key != "" && Stays(files, goals, key, k)
    ensures var now := Stamps(files, goals, key); now[k] == LastOr(now[0], Brought(us, goals, key)[..k])
  {
    var now, brought := Stamps(files, goals, key), Brought(us, goals, key);
    forall i | 0 <= i < k ensures now[i + 1] == Or(brought[i], now[i]) {
      StageFollows(files, us, goals, key, i);
    }
    LastOrFollows(now, brought, k);
  }

  /** An update that takes the key's stamp away: several lines, and no stamp on the first. */
  predicate Strips(u: Update, goals: bool, key: string) {
    var w := ValueUnder(ListIn(u, goals), key);
    w.Some? && SeveralLines(w.value) && StampOf(FirstLineOf(w.value)).None?
  }

  /** An update that leaves the key's stamp alone. */
  predicate Leaves(u: Update, goals: bool, key: string) {
    var w := ValueUnder(ListIn(u, goals), key);
    w.None? || (!SeveralLines(w.value) && StampOf(w.value).None?)
  }

  lemma SaysMeans(u: Update, goals: bool, key: string)
    ensures Strips(u, goals, key) <==> Says(ValueUnder(ListIn(u, goals), key)) == Some(None)
    ensures Leaves(u, goals, key) <==> Says(ValueUnder(ListIn(u, goals), key)) == None
  {
    var w := ValueUnder(ListIn(u, goals), key);
    if w.Some? {
      OneLineSays(w.value);
    }
  }

  /** The last update that said anything stripped the stamp. */
  ghost predicate Stripped(us: seq<Update>, goals: bool, key: string, k: nat)
    requires k <= |us|
  {
    LastStrips(us[..k], u => Strips(u, goals, key), u => Leaves(u, goals, key))
  }

  ghost predicate LastStrips<U>(us: seq<U>, strips: U -> bool, leaves: U -> bool) {
    exists j :: 0 <= j < |us| && strips(us[j]) && forall i :: j < i < |us| ==> leaves(us[i])
  }

  /** The last that is there is the j-th, and it is empty. */
  predicate EmptiedAt<T>(later: seq<Option<Option<T>>>, j: int) {
    0 <= j < |later| && later[j] == Some(None) && forall i :: j < i < |later| ==> later[i] == None
  }

  lemma {:induction false} LastIsNone<T>(start: T, later: seq<Option<Option<T>>>)
    ensures LastOr(Some(start), later).None? <==> exists j :: EmptiedAt(later, j)
  {
    if later != [] {
      var n := |later| - 1;
      LastIsNone(start, later[..n]);
      if later[n] == None && exists j :: EmptiedAt(later[..n], j) {
        var j :| EmptiedAt(later[..n], j);
        assert EmptiedAt(later, j);
      } else if later[n] == Some(None) {
        assert EmptiedAt(later, n);
      } else if exists j :: EmptiedAt(later, j) {
        var j :| EmptiedAt(later, j);
        assert EmptiedAt(later[..n], j);
      }
    }
  }

  lemma StrippedIff(us: seq<Update>, goals: bool, key: string, k: nat)
    requires k <= |us|
    ensures Stripped(us, goals, key, k) <==> exists j :: EmptiedAt(Brought(us, goals, key)[..k], j)
  {
    var later := Brought(us, goals, key)[..k];
    var strips, leaves := u => Strips(u, goals, key), u => Leaves(u, goals, key);
    forall i | 0 <= i < k
      ensures strips(us[..k][i]) <==> later[i] == Some(None)
      ensures leaves(us[..k][i]) <==> later[i] == None
    {
      SaysMeans(us[i], goals, key);
    }
    SameLast(us[..k], strips, leaves, later);
  }

  lemma SameLast<U, T>(us: seq<U>, strips: U -> bool, leaves: U -> bool, later: seq<Option<Option<T>>>)
    requires |later| == |us|
    requires forall i :: 0 <= i < |us| ==> (strips(us[i]) <==> later[i] == Some(None))
    requires forall i :: 0 <= i < |us| ==> (leaves(us[i]) <==> later[i] == None)
    ensures LastStrips(us, strips, leaves) <==> exists j :: EmptiedAt(later, j)
  {
    if LastStrips(us, strips, leaves) {
      var j :| 0 <= j < |us| && strips(us[j]) && forall i :: j < i < |us| ==> leaves(us[i]);
      assert EmptiedAt(later, j);
    }
    if exists j :: EmptiedAt(later, j) {
      var j :| EmptiedAt(later, j);
      assert strips(us[j]);
    }
  }

  /** Main result, exactly: a key that stays in its list loses its stamp over a run if and only
      if some update brought it several lines without a stamp on the first, and no later one
      brought it a stamp. */
  lemma StampIsLostIff(files: seq<string>, us: seq<Update>, goals: bool, key: string, k: nat)
    requires IsRun(files, us) && k <= |us| && key != "" && Stays(files, goals, key, k)
    requires StampIn(files[0], goals, key).Some?
    ensures StampIn(files[k], goals, key).None? <==> Stripped(us, goals, key, k)
  {
    StampIsLastBrought(files, us, goals, key, k);
    LastIsNone(StampIn(files[0], goals, key).value, Brought(us, goals, key)[..k]);
    StrippedIff(us, goals, key, k);
  }

  // ---- a stamp that is lost ----

  lemma SmallIsWithin(it: KVItem)
    requires |it.title| <= 10 && |it.value| <= 100
    ensures WithinLimits(Content([it], []))
  {
    var c, h1, h2 := Content([it], []), MemoryLines.Header(LONG_GOALS), MemoryLines.Header(LONG_FACTS);
    assert [it][..0] == [];
    assert ItemLines(c.goals) == [] + ItemLine(it) == ItemLine(it);
    assert BodyLines(c) == [TITLE, "", h1] + ItemLine(it) + ["", h2, ""];
    UnlinesAppend([TITLE, "", h1] + ItemLine(it), ["", h2, ""]);
    UnlinesAppend([TITLE, "", h1], ItemLine(it));
    ThreeLong(TITLE, "", h1);
    ThreeLong("", h2, "");
    MemoryLines.LineText(ItemText(it));
    TrimShorter(it.title);
    TrimShorter(it.value);
    TrimShorter(Unlines(BodyLines(c)));
  }

  /** An update that leaves one small goal. */
  lemma WritesOne(before: string, u: Update, it: KVItem)
    requires u.goals != [] && Merge(Parse(before), u) == Content([it], [])
    requires QuietItem(it) && |it.title| <= 10 && |it.value| <= 100
    ensures var after := Rewrite(before, Content([it], []));
      Writes(before, u, after) && Parse(after) == Content([ReadAs(it)], [])
  {
    SmallIsWithin(it);
    WritesUndropped(before, u, Content([it], []));
    OneReadsBack(before, it);
  }

  lemma WritesUndropped(before: string, u: Update, c: Content)
    requires u.goals != [] && Merge(Parse(before), u) == c && WithinLimits(c)
    ensures Writes(before, u, Rewrite(before, c))
  {
    assert Dropped(c, 0) == c && Fewest(c, 0);
  }

  lemma OneReadsBack(before: string, it: KVItem)
    requires QuietItem(it)
    ensures Parse(Rewrite(before, Content([it], []))) == Content([ReadAs(it)], [])
  {
    OneIsTame(it);
    ReadBack(before, Content([it], []));
  }

  lemma OneIsTame(it: KVItem)
    requires QuietItem(it)
    ensures Tame(Content([it], [])) && FirstLines([it]) == [ReadAs(it)] && FirstLines([]) == []
  {
    QuietIsTame([it]);
  }

  lemma NothingIsRead()
    ensures Parse("") == Content([], [])
  {
    MemoryLines.NoLines();
    NothingOpen([]);
  }

  lemma NormalizeOne(it: KVItem)
    requires CleanText(it.title) && Trimmed(it.value)
    ensures Normalize([it]) == [it]
  {
    assert [it][..0] == [];
    TrimIdle(it.title);
    TrimIdle(it.value);
  }

  lemma MergeOne(existing: seq<KVItem>, it: KVItem, date: string)
    requires Keyed(existing)
    ensures MergeKV(existing, [it], date) == MergeItem(existing, existing, it, date)
  {
    WithTitleIdle(existing);
    assert [it][..0] == [];
    assert MergeOnto(existing, [it][..0], date) == existing;
  }

  lemma MergeFirst(it: KVItem, date: string)
    requires KeyOf(it.title) != ""
    ensures MergeKV([], [it], date) == [Stamped(it, date)]
  {
    MergeOne([], it, date);
  }

  lemma MergeAgain(old_: KVItem, it: KVItem, date: string)
    requires KeyOf(it.title) != "" && KeyOf(old_.title) == KeyOf(it.title)
    ensures MergeKV([old_], [it], date) == [Restamped(old_, StampOf(old_.value), it)]
  {
    MergeOne([old_], it, date);
    KeyPlaces.LastPlaceIs(TitleKey, [old_], KeyOf(it.title), 0);
    StampForIs([old_], KeyOf(it.title));
  }

  lemma StampLength(value: string, stamp: Option<string>)
    ensures stamp.None? ==> |WithStamp(value, stamp)| == |value|
    ensures stamp.Some? ==> |WithStamp(value, stamp)| <= |value| + 1 + |stamp.value|
  {
    if stamp.Some? {
      TrimShorter(value);
      TrimShorter(stamp.value);
    }
  }

  lemma DayStampLength(date: string)
    requires IsDate(date)
    ensures DayStamp(date) == Some(FormatStamp(date)) && |FormatStamp(date)| == 18
  {
    assert IsDigit(date[0]) && IsDigit(date[9]);
    TrimIdle(date);
  }

  lemma OneIsIn(file: string, it: KVItem)
    requires Parse(file) == Content([it], [])
    ensures In(file, true, KeyOf(it.title)) && StampIn(file, true, KeyOf(it.title)) == StampOf(it.value)
  {
    KeyPlaces.LastPlaceIs(TitleKey, [it], KeyOf(it.title), 0);
  }

  lemma NothingMerges(date: string)
    ensures MergeKV([], Normalize([]), date) == []
  {
  }

  /** A small goal in the form in which it is merged. */
  predicate Small(it: KVItem) {
    QuietItem(it) && Trimmed(it.value) && KeyOf(it.title) != "" && |it.title| <= 10 && |it.value| <= 50
  }

  function Promote(it: KVItem, date: string): Update {
    Update([it], [], date)
  }

  lemma PromoteMerges(c: Content, it: KVItem, date: string)
    requires Small(it) && c.facts == []
    ensures Merge(c, Promote(it, date)) == Content(MergeKV(c.goals, [it], date), [])
  {
    NormalizeOne(it);
    NothingMerges(date);
  }

  lemma PromoteIsQuiet(it: KVItem, date: string)
    requires Small(it) && IsDate(date)
    ensures QuietUpdate(Promote(it, date))
  {
    NormalizeOne(it);
    assert Normalize([]) == [];
  }

  lemma SmallStamped(it: KVItem, date: string)
    requires Small(it) && IsDate(date)
    ensures var first := Stamped(it, date);
      QuietItem(first) && first.title == it.title && |first.title| <= 10 && |first.value| <= 100
    ensures StampOf(FirstLineOf(Stamped(it, date).value)) == Or(Says(Some(it.value)), DayStamp(date))
  {
    StampedItemQuiet(it, date);
    TrimIdle(it.title);
    TrimIdle(it.value);
    StampLength(it.value, DayStamp(date));
    DayStampLength(date);
    NewValueReads(it.value, date);
  }

  lemma SmallRestamped(old_: KVItem, it: KVItem, date: string)
    requires GoodItem(old_) && StampOf(old_.value) == DayStamp(date) && Small(it) && it.value != "" && IsDate(date)
    ensures var second := Restamped(old_, DayStamp(date), it);
      QuietItem(second) && second.title == it.title && |second.title| <= 10 && |second.value| <= 100
    ensures StampOf(FirstLineOf(Restamped(old_, DayStamp(date), it).value)) == Or(Says(Some(it.value)), DayStamp(date))
  {
    DayStampIsPlain(date);
    OneLineValue(old_.value);
    RestampedQuiet(old_, DayStamp(date), it);
    TrimIdle(it.title);
    TrimIdle(it.value);
    StampLength(it.value, DayStamp(date));
    DayStampLength(date);
    OldValueReads(old_.value, it.value);
  }

  lemma FirstUpdate(one: KVItem, date: string) returns (after: string, it: KVItem)
    requires Small(one) && IsDate(date)
    ensures QuietUpdate(Promote(one, date)) && Writes("", Promote(one, date), after)
    ensures Parse(after) == Content([it], []) && GoodItem(it) && it.title == one.title
    ensures StampOf(it.value) == Or(Says(Some(one.value)), DayStamp(date))
  {
    var first := Stamped(one, date);
    NothingIsRead();
    PromoteMerges(Content([], []), one, date);
    MergeFirst(one, date);
    SmallStamped(one, date);
    PromoteIsQuiet(one, date);
    WritesOne("", Promote(one, date), first);
    FirstLineIsGood(first.value);
    after, it := Rewrite("", Content([first], [])), ReadAs(first);
  }

  lemma SecondUpdate(two: KVItem, date: string, before: string, it: KVItem) returns (after: string)
    requires Small(two) && two.value != "" && IsDate(date)
    requires Parse(before) == Content([it], []) && GoodItem(it) && it.title == two.title
    requires StampOf(it.value) == DayStamp(date)
    ensures QuietUpdate(Promote(two, date)) && Writes(before, Promote(two, date), after)
    ensures In(after, true, KeyOf(two.title))
    ensures StampIn(after, true, KeyOf(two.title)) == Or(Says(Some(two.value)), DayStamp(date))
  {
    var second := Restamped(it, DayStamp(date), two);
    PromoteMerges(Content([it], []), two, date);
    MergeAgain(it, two, date);
    SmallRestamped(it, two, date);
    PromoteIsQuiet(two, date);
    WritesOne(before, Promote(two, date), second);
    after := Rewrite(before, Content([second], []));
    OneIsIn(after, ReadAs(second));
  }

  /** Such runs exist: a goal of one line is stamped with the day, and several lines brought for
      it take the stamp away. */
  lemma StampCanBeLost(one: KVItem, two: KVItem, date: string) returns (first: string, second: string)
    requires Small(one) && Says(Some(one.value)) == None && IsDate(date)
    requires Small(two) && Says(Some(two.value)) == Some(None) && two.title == one.title
    ensures IsRun(["", first, second], [Promote(one, date), Promote(two, date)])
    ensures In(first, true, KeyOf(one.title)) && StampIn(first, true, KeyOf(one.title)) == Some(FormatStamp(date))
    ensures In(second, true, KeyOf(one.title)) && StampIn(second, true, KeyOf(one.title)) == None
  {
    var it;
    NothingSays();
    DayStampLength(date);
    first, it := FirstUpdate(one, date);
    second := SecondUpdate(two, date, first, it);
    OneIsIn(first, it);
    NothingIsRead();
    RunOfTwo("", first, second, Promote(one, date), Promote(two, date));
  }

  lemma RunOfTwo(start: string, first: string, second: string, u: Update, v: Update)
    requires Good(Parse(start)) && Step(start, u, first) && Step(first, v, second)
    ensures IsRun([start, first, second], [u, v])
  {
    TwoSteps(start, first, second, u, v, Step);
  }

  lemma TwoSteps<S, U>(a: S, b: S, c: S, u: U, v: U, next: (S, U, S) -> bool)
    requires next(a, u, b) && next(b, v, c)
    ensures Steps([a, b, c], [u, v], next)
  {
  }

  /** As with these two values. */
  lemma OneLineThenTwo()
    ensures var one, two := KVItem("T", "x"), KVItem("T", "a\nb");
      Small(one) && Says(Some(one.value)) == None && Small(two) && Says(Some(two.value)) == Some(None)
  {
    TitleIsGood();
    OneLineValue("x");
    TrimIdle("x");
    TwoLines();
  }

  lemma TitleIsGood()
    ensures GoodTitle("T") && KeyOf("T") != ""
  {
    var t := "T";
    assert forall k :: OccursAt(t, BOLD, k) ==> k + 1 < |t|;
    TrimIdle(t);
  }

  lemma TwoLines()
    ensures var v := "a\nb"; Trimmed(v) && QuietLines(RestLines(v)) && Says(Some(v)) == Some(None)
  {
    var v := "a\nb";
    assert v == "a" + "\n" + "b" && v[1] == '\n';
    TrimIdle(v);
    TrimIdle("a");
    TrimIdle("b");
    FirstLineAt(v, true, "a", "b");
    CleanLinesOfLine("b");
  }
}
