/** Exactly which long-term content comes back from its file (memory/merge.go:35-41, 152-272). */
module LongTermExact {
  import opened Wrappers
  import opened Text
  import opened MemorySections
  import opened MemoryLines
  import opened MemoryItems
  import opened LongTerm

  // Reading makes a value of several lines only of lines that are no items, and the file has such
  // a line only for each further line of a value; so no value of several lines comes back. What
  // is left prints one line an item, and that line gives back good titles only.

  // ---- what items can be read from how many lines ----

  /** The lines that are no key-value lines. */
  function Others(lines: seq<string>): nat {
    if lines == [] then 0
    else Others(lines[..|lines| - 1]) + (if ParseKVLine(lines[|lines| - 1]).Some? then 0 else 1)
  }

  /** The lines of a value of several lines. */
  function Weight(value: string): nat {
    if SingleLine(value) then 0 else |CleanLines(value)|
  }

  function Weights(items: seq<KVItem>): nat {
    if items == [] then 0 else Weights(items[..|items| - 1]) + Weight(items[|items| - 1].value)
  }

  lemma WeightsNext(items: seq<KVItem>, it: KVItem)
    ensures Weights(items + [it]) == Weights(items) + Weight(it.value)
  {
    assert (items + [it])[..|items|] == items;
  }

  lemma {:induction false} CleanShrinks(ls: seq<string>)
    ensures |Clean(ls)| <= |ls|
  {
    if ls != [] {
      CleanShrinks(ls[1..]);
    }
  }

  lemma JoinWeight(ls: seq<string>)
    requires SingleLines(ls)
    ensures Weight(Trim(Join(ls, '\n'))) <= |ls|
  {
    if ls == [] {
      TrimIdle("");
    } else {
      SplitJoin(ls, '\n');
      CleanLinesOfTrimmed(Join(ls, '\n'));
      CleanShrinks(ls);
    }
  }

  lemma AfterColonPlain(s: string)
    requires SingleLine(s)
    ensures SingleLine(AfterColon(s)) && Trimmed(AfterColon(s))
  {
    var t := Trim(s);
    var i, j := TrimParts(s);
    TrimOfSingleLine(s);
    if HasPrefix(t, ":") {
      var k, l := TrimParts(t[1..]);
      TrimOfSingleLine(t[1..]);
    }
  }

  /** What one line spells is on one line, and trimmed. */
  lemma KVLinePlain(l: string)
    requires SingleLine(l) && ParseKVLine(l).Some?
    ensures var it := ParseKVLine(l).value;
      SingleLine(it.title) && Trimmed(it.title) && SingleLine(it.value) && Trimmed(it.value)
  {
    var rest := l[|KV_MARK|..];
    var i := Index(rest, BOLD);
    var a, b := TrimParts(rest[..i]);
    TrimOfSingleLine(rest[..i]);
    AfterColonPlain(rest[i + 2..]);
  }

  lemma NumberedPlain(l: string)
    requires SingleLine(l) && ParseNumberedKVLine(l).Some?
    ensures SingleLine(ParseNumberedKVLine(l).value.0) && SingleLine(ParseNumberedKVLine(l).value.1)
  {
    var dot := Index(l, ".");
    TrimOfSingleLine(l[dot + 1..]);
    NumberedRestPlain(Trim(l[dot + 1..]));
  }

  lemma NumberedRestPlain(rest: string)
    requires SingleLine(rest) && NumberedRest(rest).Some?
    ensures SingleLine(NumberedRest(rest).value.0) && SingleLine(NumberedRest(rest).value.1)
  {
    if HasPrefix(rest, BOLD) {
      BoldRestPlain(rest[2..]);
    } else if HasPrefix(ToLower(rest), TOPIC) {
      AfterColonPlain(rest[|TOPIC|..]);
    } else {
      var colon := Index(rest, ":");
      TrimOfSingleLine(rest);
      if colon >= 0 {
        TrimOfSingleLine(rest[..colon]);
        TrimOfSingleLine(rest[colon + 1..]);
      }
    }
  }

  lemma BoldRestPlain(rest: string)
    requires SingleLine(rest) && BoldRest(rest).Some?
    ensures SingleLine(BoldRest(rest).value.0) && SingleLine(BoldRest(rest).value.1)
  {
    var end := Index(rest, BOLD);
    TrimOfSingleLine(rest[..end]);
    AfterColonPlain(rest[end + 2..]);
    TrimOfSingleLine(AfterColon(rest[end + 2..]));
  }

  /** A title as reading gives it, and a trimmed value. */
  predicate AsRead(items: seq<KVItem>) {
    forall k :: 0 <= k < |items| ==>
      Trimmed(items[k].title) && SingleLine(items[k].title) && Trimmed(items[k].value)
  }

  /** Every line read is in at most one value. */
  ghost predicate Weighed(r: Reading, n: nat) {
    && Weights(r.items) + |r.lines| <= n
    && SingleLines(r.lines) && SingleLine(r.title) && AsRead(r.items)
  }

  lemma FlushWeight(r: Reading, n: nat)
    requires Weighed(r, n)
    ensures Weights(Flush(r).items) <= n && AsRead(Flush(r).items)
  {
    var value := Trim(Join(r.lines, '\n'));
    JoinWeight(r.lines);
    WeightsNext(r.items, KVItem(Trim(r.title), value));
    TrimOfSingleLine(r.title);
    TrimTrims(r.title);
    TrimTrims(Join(r.lines, '\n'));
    AsReadNext(r.items, KVItem(Trim(r.title), value));
  }

  lemma TrimTrims(s: string)
    ensures Trimmed(Trim(s))
  {
    var i, j := TrimParts(s);
  }

  lemma AsReadNext(items: seq<KVItem>, it: KVItem)
    requires AsRead(items) && Trimmed(it.title) && SingleLine(it.title) && Trimmed(it.value)
    ensures AsRead(items + [it])
  {
  }

  lemma NumberedWeight(r: Reading, l: string, n: nat)
    requires Weighed(r, n) && SingleLine(l) && ParseNumberedKVLine(l).Some?
    ensures Weighed(ReadLine(r, l), n + 1) && ParseKVLine(l).None?
  {
    FlushWeight(r, n);
    NumberedPlain(l);
    if HasPrefix(l, KV_MARK) {
      DashLine(l);
    }
  }

  lemma ItemWeight(r: Reading, l: string, n: nat)
    requires Weighed(r, n) && SingleLine(l) && ParseNumberedKVLine(l).None? && ParseKVLine(l).Some?
    ensures Weighed(ReadLine(r, l), n)
  {
    var it := ParseKVLine(l).value;
    FlushWeight(r, n);
    KVLinePlain(l);
    WeightsNext(Flush(r).items, it);
    ReadKVLine(r, l, it);
  }

  lemma FurtherWeight(r: Reading, l: string, n: nat)
    requires Weighed(r, n) && SingleLine(l) && ParseNumberedKVLine(l).None? && ParseKVLine(l).None?
    ensures Weighed(ReadLine(r, l), n + 1)
  {
    if HasPrefix(l, "-") {
      TrimOfSingleLine(l[1..]);
    }
  }

  lemma ReadLineWeight(r: Reading, l: string, n: nat)
    requires Weighed(r, n) && SingleLine(l)
    ensures Weighed(ReadLine(r, l), n + (if ParseKVLine(l).Some? then 0 else 1))
  {
    if ParseNumberedKVLine(l).Some? {
      NumberedWeight(r, l, n);
    } else if ParseKVLine(l).Some? {
      ItemWeight(r, l, n);
    } else {
      FurtherWeight(r, l, n);
    }
  }

  lemma {:induction false} ReadWeight(lines: seq<string>)
    requires SingleLines(lines)
    ensures Weighed(ReadLines(lines), Others(lines))
  {
    if lines != [] {
      var n := |lines| - 1;
      ReadWeight(lines[..n]);
      ReadLineWeight(ReadLines(lines[..n]), lines[n], Others(lines[..n]));
    }
  }

  lemma {:induction false} FirstTitlesShrink(items: seq<KVItem>)
    requires AsRead(items)
    ensures Weights(FirstTitles(items)) <= Weights(items) && |FirstTitles(items)| <= |items|
    ensures |FirstTitles(items)| == |items| ==> FirstTitles(items) == items
    ensures AsRead(FirstTitles(items)) && CleanTitles(FirstTitles(items))
  {
    if items != [] {
      var n := |items| - 1;
      FirstTitlesShrink(items[..n]);
      WeightsNext(FirstTitles(items[..n]), items[n]);
      SplitLast(items);
      TrimIdle("");
    }
  }

  /** Reading makes no more lines of values than there are lines to make them of. */
  lemma ParsedWeight(lines: seq<string>)
    requires SingleLines(lines)
    ensures Weights(ParseKV(lines)) <= Others(lines) && AsRead(ParseKV(lines)) && CleanTitles(ParseKV(lines))
  {
    ReadWeight(lines);
    FlushWeight(ReadLines(lines), Others(lines));
    FirstTitlesShrink(Flush(ReadLines(lines)).items);
  }

  // ---- how many such lines a file has ----

  /** Lines in either long-term section that are no key-value lines. */
  function Both(lines: seq<string>): nat {
    Others(Section(lines, LONG_GOALS)) + Others(Section(lines, LONG_FACTS))
  }

  lemma OthersNext(lines: seq<string>, more: seq<string>)
    requires |more| <= 1
    ensures Others(lines + more) == Others(lines) + (if more == [] || ParseKVLine(more[0]).Some? then 0 else 1)
  {
    if more == [] {
      assert lines + more == lines;
    } else {
      assert (lines + more)[..|lines|] == lines;
    }
  }

  lemma BothNext(lines: seq<string>, l: string)
    ensures Both(lines + [l]) <= Both(lines) + (if ParseKVLine(l).Some? then 0 else 1)
  {
    var here := Current(lines);
    NamesAreClean();
    SectionNext(lines, l, LONG_GOALS);
    SectionNext(lines, l, LONG_FACTS);
    OthersNext(Section(lines, LONG_GOALS), if !IsHeader(l) && here == LONG_GOALS then [l] else []);
    OthersNext(Section(lines, LONG_FACTS), if !IsHeader(l) && here == LONG_FACTS then [l] else []);
  }

  lemma {:induction false} BothMore(lines: seq<string>, more: seq<string>)
    ensures Both(lines + more) <= Both(lines) + |more|
  {
    if more == [] {
      assert lines + more == lines;
    } else {
      var n := |more| - 1;
      BothMore(lines, more[..n]);
      LastBehind(lines, more);
      BothNext(lines + more[..n], more[n]);
    }
  }

  /** The further lines of all values. */
  function Rests(items: seq<KVItem>): nat {
    if items == [] then 0 else Rests(items[..|items| - 1]) + |RestLines(items[|items| - 1].value)|
  }

  /** What stands behind the opening of an item line. */
  function Labelled(title: string, value: string): string {
    title + (BOLD + LabelRest(value))
  }

  lemma MarkedLine(s: string)
    requires Index(s, BOLD) >= 0
    ensures var i := Index(s, BOLD);
      var title, value := Trim(s[..i]), AfterColon(s[i + 2..]);
      ParseKVLine(KV_MARK + s) == if title == "" && value == "" then None else Some(KVItem(title, value))
  {
    var l := KV_MARK + s;
    assert l[..|KV_MARK|] == KV_MARK && l[|KV_MARK|..] == s;
  }

  /** The label ends with the title, or before. */
  lemma LabelFound(title: string, value: string)
    ensures ReadItem(title, value) == KV_MARK + Labelled(title, value)
    ensures 0 <= Index(Labelled(title, value), BOLD) <= |title|
  {
    var s := Labelled(title, value);
    assert s[|title|..|title| + 2] == BOLD;
    assert OccursAt(s, BOLD, |title|);
  }

  lemma OwnLineIsItem(title: string, value: string)
    requires CleanText(title) && GoodValue(value)
    ensures ParseKVLine(ReadItem(title, value)).Some?
  {
    var s := Labelled(title, value);
    LabelFound(title, value);
    MarkedLine(s);
    if Index(s, BOLD) > 0 {
      assert s[..Index(s, BOLD)][0] == title[0];
      InkStays(s[..Index(s, BOLD)]);
    } else {
      AfterOpening(title, value, s);
    }
  }

  lemma InkStays(s: string)
    requires s != "" && !IsSpace(s[0])
    ensures Trim(s) != ""
  {
    var tail := TrimTail(s);
  }

  /** A title that opens in bold leaves at least one mark behind its label. */
  lemma AfterOpening(title: string, value: string, s: string)
    requires CleanText(title) && s == title + (BOLD + LabelRest(value)) && OccursAt(s, BOLD, 0)
    ensures AfterColon(s[2..]) != ""
  {
    var star := if |title| == 1 then 2 else |title|;
    assert BOLD[0] == BOLD[1] == '*' && s[|title|] == BOLD[0] && s[|title| + 1] == BOLD[1];
    assert s[2..][star - 2] == s[star] == '*';
    TrimKeeps(s[2..], '*');
    var t := Trim(s[2..]);
    if HasPrefix(t, ":") {
      assert t == [t[0]] + t[1..] && t[0] == ':';
      TrimKeeps(t[1..], '*');
    }
  }

  lemma TrimKeeps(s: string, c: char)
    requires c in s && !IsSpace(c)
    ensures c in Trim(s)
  {
    var i, j := TrimParts(s);
    assert s == s[..i] + s[i..j] + s[j..];
  }

  lemma BothItem(lines: seq<string>, it: KVItem)
    requires CleanText(it.title)
    ensures Both(lines + ItemRead(it)) <= Both(lines) + |RestLines(it.value)|
  {
    var own, rest := ReadItem(it.title, FirstLineOf(it.value)), RestLines(it.value);
    FirstLineIsGood(it.value);
    OwnLineIsItem(it.title, FirstLineOf(it.value));
    BothNext(lines, own);
    BothMore(lines + [own], rest);
    ConcatThree(lines, [own], rest);
  }

  /** The lines of written items: only the further lines of their values are no items. */
  lemma {:induction false} BothItems(lines: seq<string>, items: seq<KVItem>)
    requires CleanTitles(items)
    ensures Both(lines + AllRead(items)) <= Both(lines) + Rests(items)
  {
    if items == [] {
      assert lines + [] == lines;
    } else {
      var n := |items| - 1;
      BothItems(lines, items[..n]);
      BothItem(lines + AllRead(items[..n]), items[n]);
      ConcatThree(lines, AllRead(items[..n]), ItemRead(items[n]));
    }
  }

  lemma BothTodo(lines: seq<string>, name: string, todo: seq<string>)
    requires CleanText(name) && name != LONG_GOALS && name != LONG_FACTS && TodoLines(todo)
    ensures Both(lines + Seen(TodoBlock(name, todo))) == Both(lines)
  {
    NamesAreClean();
    if todo == [] {
      assert lines + [] == lines;
    } else {
      HeaderIs(name);
      BlockSection(lines, Header(name), todo, LONG_GOALS);
      BlockSection(lines, Header(name), todo, LONG_FACTS);
      SeenMore(lines, [], Block(name, todo));
      assert [] + [Block(name, todo)] == [Block(name, todo)] && lines + [] == lines;
      assert Section(lines, LONG_GOALS) + [] == Section(lines, LONG_GOALS);
      assert Section(lines, LONG_FACTS) + [] == Section(lines, LONG_FACTS);
    }
  }

  lemma BothHeader(lines: seq<string>, name: string)
    requires CleanText(name)
    ensures Both(lines + [Header(name)]) == Both(lines)
  {
    HeaderIs(name);
    NamesAreClean();
    SectionNext(lines, Header(name), LONG_GOALS);
    SectionNext(lines, Header(name), LONG_FACTS);
    assert Section(lines, LONG_GOALS) + [] == Section(lines, LONG_GOALS);
    assert Section(lines, LONG_FACTS) + [] == Section(lines, LONG_FACTS);
  }

  lemma BothBody(c: Content)
    requires CleanTitles(c.goals) && CleanTitles(c.facts)
    ensures Both(CleanLines(Build(c))) <= Rests(c.goals) + Rests(c.facts)
  {
    var lines := [TITLE];
    NamesAreClean();
    TitleReads();
    PreambleSection(lines, LONG_GOALS);
    PreambleSection(lines, LONG_FACTS);
    BothHeader(lines, LONG_GOALS);
    BothItems(lines + [Header(LONG_GOALS)], c.goals);
    var goals := lines + [Header(LONG_GOALS)] + AllRead(c.goals);
    BothHeader(goals, LONG_FACTS);
    BothItems(goals + [Header(LONG_FACTS)], c.facts);
    BodyRead(c);
    SeenTwo(BlocksOf(c)[0], BlocksOf(c)[1]);
    Lead(TITLE, Header(LONG_GOALS), AllRead(c.goals), Header(LONG_FACTS), AllRead(c.facts));
  }

  lemma BothFile(old_: string, c: Content)
    requires CleanTitles(c.goals) && CleanTitles(c.facts)
    ensures Both(CleanLines(Rewrite(old_, c))) <= Rests(c.goals) + Rests(c.facts)
  {
    var tasks, followUps := Section(CleanLines(old_), TASKS), Section(CleanLines(old_), FOLLOW_UPS);
    NamesAreClean();
    SectionsAreTodo(old_, TASKS);
    SectionsAreTodo(old_, FOLLOW_UPS);
    BothBody(c);
    AppendedRead(Build(c), tasks, followUps);
    BothTodo(CleanLines(Build(c)), TASKS, tasks);
    BothTodo(CleanLines(Build(c)) + Seen(TodoBlock(TASKS, tasks)), FOLLOW_UPS, followUps);
  }

  // ---- values of several lines do not come back ----

  lemma SeveralWeigh(value: string)
    requires Trimmed(value)
    ensures Weight(value) == |RestLines(value)| + (if SingleLine(value) then 0 else 1)
  {
    var found, l, rest := FirstLine(value);
    FirstLineAt(value, found, l, rest);
    if found {
      assert value[|l|] == '\n';
      CleanLinesPiece(l, rest);
      assert value[0] == (l + "\n" + rest)[0];
      InkStays(l);
    } else {
      OneLineValue(value);
    }
  }

  /** How many values have several lines. */
  function Severals(items: seq<KVItem>): nat {
    if items == [] then 0
    else Severals(items[..|items| - 1]) + (if SingleLine(items[|items| - 1].value) then 0 else 1)
  }

  lemma {:induction false} SeveralsWeigh(items: seq<KVItem>)
    requires AsRead(items)
    ensures Weights(items) == Rests(items) + Severals(items)
  {
    if items != [] {
      SeveralsWeigh(items[..|items| - 1]);
      SeveralWeigh(items[|items| - 1].value);
    }
  }

  predicate OneLiners(items: seq<KVItem>) {
    forall k :: 0 <= k < |items| ==> CleanText(items[k].title) && GoodValue(items[k].value)
  }

  lemma {:induction false} NoneIsSeveral(items: seq<KVItem>)
    requires AsRead(items) && CleanTitles(items) && Severals(items) == 0
    ensures OneLiners(items)
  {
    if items != [] {
      NoneIsSeveral(items[..|items| - 1]);
      SplitLast(items);
    }
  }

  lemma SectionIsSingle(body: string, name: string)
    ensures SingleLines(Section(CleanLines(body), name))
  {
    SectionIsClean(body, name);
    var lines := Section(CleanLines(body), name);
    forall k | 0 <= k < |lines| ensures SingleLine(lines[k]) {
      assert lines[k] in lines;
    }
  }

  /** Content that comes back has no more lines of values than its file has to make them of. */
  lemma ComesBackWeighed(old_: string, c: Content)
    requires Parse(Rewrite(old_, c)) == c
    ensures AsRead(c.goals) && CleanTitles(c.goals) && AsRead(c.facts) && CleanTitles(c.facts)
    ensures Weights(c.goals) + Weights(c.facts) <= Rests(c.goals) + Rests(c.facts)
  {
    var lines := CleanLines(Rewrite(old_, c));
    SectionIsSingle(Rewrite(old_, c), LONG_GOALS);
    SectionIsSingle(Rewrite(old_, c), LONG_FACTS);
    ParsedWeight(Section(lines, LONG_GOALS));
    ParsedWeight(Section(lines, LONG_FACTS));
    BothFile(old_, c);
  }

  /** So its values are on one line. */
  lemma ComesBackOnOneLine(old_: string, c: Content)
    requires Parse(Rewrite(old_, c)) == c
    ensures OneLiners(c.goals) && OneLiners(c.facts)
  {
    ComesBackWeighed(old_, c);
    SeveralsWeigh(c.goals);
    SeveralsWeigh(c.facts);
    NoneIsSeveral(c.goals);
    NoneIsSeveral(c.facts);
  }

  // ---- and then neither do other titles ----

  lemma OwnLineIsPlain(title: string, value: string)
    requires CleanText(title) && GoodValue(value)
    ensures !IsHeader(ReadItem(title, value)) && ParseKVLine(ReadItem(title, value)).Some?
    ensures SingleLine(ReadItem(title, value))
  {
    MarkFirst(title, BOLD + LabelRest(value));
    DashLine(ReadItem(title, value));
    OwnLineIsItem(title, value);
    ItemIsClean(title, value);
  }

  /** The only lines of one-line items are their own. */
  function OwnLines(items: seq<KVItem>): seq<string> {
    seq(|items|, k requires 0 <= k < |items| => ReadItem(items[k].title, items[k].value))
  }

  lemma OwnItemRead(it: KVItem)
    requires GoodValue(it.value)
    ensures ItemRead(it) == [ReadItem(it.title, it.value)]
  {
    OneLineValue(it.value);
  }

  lemma OneLineEach(items: seq<KVItem>)
    requires OneLiners(items)
    ensures AllRead(items) == OwnLines(items)
  {
    forall k | 0 <= k < |items| ensures ItemRead(items[k]) == [OwnLines(items)[k]] {
      OwnItemRead(items[k]);
    }
    LineByLine(items, OwnLines(items));
  }

  lemma {:induction false} LineByLine(items: seq<KVItem>, lines: seq<string>)
    requires |lines| == |items| && forall k :: 0 <= k < |items| ==> ItemRead(items[k]) == [lines[k]]
    ensures AllRead(items) == lines
  {
    if items != [] {
      var n := |items| - 1;
      LineByLine(items[..n], lines[..n]);
      SplitLast(lines);
    }
  }

  lemma OneLinersArePlain(items: seq<KVItem>)
    requires OneLiners(items)
    ensures PlainItems(items)
  {
    OneLineEach(items);
    forall k | 0 <= k < |items| ensures !IsHeader(OwnLines(items)[k]) {
      OwnLineIsPlain(items[k].title, items[k].value);
    }
  }

  lemma NextIsRead(lines: seq<string>, l: string, items: seq<KVItem>)
    requires ReadLines(lines) == Reading(items, "", []) && ParseKVLine(l).Some?
    ensures ReadLines(lines + [l]) == Reading(items + [ParseKVLine(l).value], "", [])
  {
    ReadAppend(lines, l);
    DashLine(l);
    NothingOpen(items);
    ReadKVLine(Reading(items, "", []), l, ParseKVLine(l).value);
  }

  /** Lines that are all items are read one by one. */
  lemma {:induction false} EachIsRead(lines: seq<string>)
    requires forall k :: 0 <= k < |lines| ==> ParseKVLine(lines[k]).Some?
    ensures ReadLines(lines) == Reading(ItemsOf(lines), "", [])
  {
    if lines != [] {
      var n := |lines| - 1;
      EachIsRead(lines[..n]);
      NextIsRead(lines[..n], lines[n], ItemsOf(lines[..n]));
      SplitLast(lines);
      assert ItemsOf(lines) == ItemsOf(lines[..n]) + [ParseKVLine(lines[n]).value];
    }
  }

  function ItemsOf(lines: seq<string>): seq<KVItem>
    requires forall k :: 0 <= k < |lines| ==> ParseKVLine(lines[k]).Some?
  {
    seq(|lines|, k requires 0 <= k < |lines| => ParseKVLine(lines[k]).value)
  }

  /** Only a good title ends its own label. */
  lemma LabelMustEnd(title: string, value: string)
    requires CleanText(title) && ParseKVLine(ReadItem(title, value)).Some?
    requires ParseKVLine(ReadItem(title, value)).value.title == title
    ensures GoodTitle(title)
  {
    var s := Labelled(title, value);
    LabelFound(title, value);
    MarkedLine(s);
    var i := Index(s, BOLD);
    TrimShorter(s[..i]);
    assert i == |title|;
    forall k | 0 <= k <= |title| ensures !OccursAt(title, BOLD, k) {
      BoldPair(title, k);
      BoldPair(s, k);
    }
    BoldPair(s, |title| - 1);
    assert s[|title|] == BOLD[0] == '*';
  }

  /** One-line items that are read back as they are have good titles. */
  lemma ItemsMustBeGood(items: seq<KVItem>)
    requires OneLiners(items) && ParseKV(AllRead(items)) == items
    ensures GoodItems(items)
  {
    var lines := OwnLines(items);
    OneLineEach(items);
    forall k | 0 <= k < |lines| ensures ParseKVLine(lines[k]).Some? && SingleLine(lines[k]) {
      OwnLineIsPlain(items[k].title, items[k].value);
    }
    EachIsRead(lines);
    NothingOpen(ItemsOf(lines));
    ReadWeight(lines);
    FirstTitlesShrink(ItemsOf(lines));
    assert ItemsOf(lines) == items;
    forall k | 0 <= k < |items| ensures GoodItem(items[k]) {
      assert ParseKVLine(lines[k]).value == items[k];
      LabelMustEnd(items[k].title, items[k].value);
    }
  }

  lemma MustBeGood(old_: string, c: Content)
    requires Parse(Rewrite(old_, c)) == c
    ensures Good(c)
  {
    ComesBackOnOneLine(old_, c);
    OneLinersArePlain(c.goals);
    OneLinersArePlain(c.facts);
    NamesAreClean();
    SectionsBack(old_, c, LONG_GOALS);
    SectionsBack(old_, c, LONG_FACTS);
    ItemsMustBeGood(c.goals);
    ItemsMustBeGood(c.facts);
    ParsedIsUnique(AllRead(c.goals));
    ParsedIsUnique(AllRead(c.facts));
  }

  /** Main result, exactly: content comes back from its file if and only if the titles of each
      list are unique, hold no bold mark and end in no asterisk, and every title and value is
      trimmed and on one line, the titles not empty. */
  lemma RoundTripIff(old_: string, c: Content)
    ensures Parse(Rewrite(old_, c)) == c <==> Good(c)
  {
    if Parse(Rewrite(old_, c)) == c {
      MustBeGood(old_, c);
    }
    if Good(c) {
      RoundTrip(old_, c);
    }
  }
}
