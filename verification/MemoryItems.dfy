/** Reading the items of a section: key-value pairs, to-do items and links
    (memory/merge.go:152-377). */
module MemoryItems {
  import opened Wrappers
  import opened Text
  import opened MemorySections

  // ---- one line ----

  function AfterColon(s: string): string {
    var t := Trim(s);
    if HasPrefix(t, ":") then Trim(t[1..]) else t
  }

  const KV_MARK := "- **"
  const BOLD := "**"
  const TOPIC := "topic"

  function ParseKVLine(line: string): Option<KVItem> {
    if !HasPrefix(line, KV_MARK) then None
    else
      var rest := line[|KV_MARK|..];
      var i := Index(rest, BOLD);
      if i < 0 then None
      else
        var title, after := Trim(rest[..i]), AfterColon(rest[i + 2..]);
        if title == "" && after == "" then None else Some(KVItem(title, after))
  }

  /** A numbered line opens an item: its title, and what stands behind it. */
  function ParseNumberedKVLine(line: string): Option<(string, string)> {
    var dot := Index(line, ".");
    if dot <= 0 || !AllDigits(line[..dot]) then None
    else NumberedRest(Trim(line[dot + 1..]))
  }

  function NumberedRest(rest: string): Option<(string, string)> {
    if rest == "" then None
    else if HasPrefix(rest, BOLD) then BoldRest(rest[2..])
    else if HasPrefix(ToLower(rest), TOPIC) then
      var after := AfterColon(rest[|TOPIC|..]);
      if after == "" then None else Some((after, ""))
    else
      var colon := Index(rest, ":");
      var title := Trim(if colon < 0 then rest else rest[..colon]);
      if title == "" then None
      else Some((title, if colon < 0 then "" else Trim(rest[colon + 1..])))
  }

  function BoldRest(rest: string): Option<(string, string)> {
    var end := Index(rest, BOLD);
    if end < 0 then None
    else
      var name, after := Trim(rest[..end]), AfterColon(rest[end + 2..]);
      if ToLower(name) == TOPIC then (if after == "" then None else Some((after, "")))
      else if name == "" then None
      else Some((name, Trim(after)))
  }

  const TODO_MARK := "- ["

  function ParseTodoLine(line: string): Option<TaskItem> {
    if !HasPrefix(line, TODO_MARK) then None
    else
      var rest := line[|TODO_MARK|..];
      var i := Index(rest, "]");
      if i < 0 then None
      else
        var text := Trim(rest[i + 1..]);
        if text == "" then None else Some(TaskItem(text, ToLower(Trim(rest[..i])) == "x"))
  }

  /** What reading a link line comes to; Panic is a slice expression with crossed bounds. */
  datatype LinkRead = NoLink | Link(it: LinkItem) | Panic

  /** Go's s[i:j]; None when it panics. */
  function Slice(s: string, i: int, j: int): Option<string> {
    if 0 <= i <= j <= |s| then Some(s[i..j]) else None
  }

  function ParseLinkLine(line: string): LinkRead {
    var start, mid, end := Index(line, "["), Index(line, "]("), LastIndex(line, ")");
    if !HasPrefix(line, "-") || start < 0 || mid < 0 || end < 0 || end <= mid + 1 then NoLink
    else
      var inner, outer := Slice(line, start + 1, mid), Slice(line, mid + 2, end);
      if inner.None? || outer.None? then Panic
      else
        var text, target := Trim(inner.value), Trim(outer.value);
        if target == "" then NoLink else Link(LinkItem(if text == "" then target else text, target))
  }

  /** A list line whose brackets stand the wrong way round: a "](" with a "[" only behind it, and
      a ")" behind both its characters. */
  ghost predicate Crossed(line: string) {
    HasPrefix(line, "-") && exists m :: CrossedAt(line, m)
  }

  predicate CrossedAt(line: string, m: int) {
    OccursAt(line, "](", m) && '[' !in line[..m] && '[' in line && ')' in line[m + 2..]
  }

  /** Main result: reading a line panics if and only if its brackets are crossed. */
  lemma LinkLinePanicsIff(line: string)
    ensures ParseLinkLine(line).Panic? <==> Crossed(line)
  {
    var start, mid, end := Index(line, "["), Index(line, "]("), LastIndex(line, ")");
    BracketIndex(line);
    ParenthesisIndex(line);
    if Crossed(line) {
      var m :| CrossedAt(line, m);
      assert mid <= m;
      assert forall k :: 0 <= k < m ==> line[..m][k] == line[k];
      assert m <= start;
      assert line[m..m + 2][0] == ']';
      var k :| 0 <= k < |line| - m - 2 && line[m + 2..][k] == ')';
      assert line[m + 2 + k] == ')';
    }
    if ParseLinkLine(line).Panic? {
      assert line[mid..mid + 2][0] == ']';
      assert mid < start;
      assert forall k :: 0 <= k < mid ==> line[..mid][k] == line[k];
      assert line[mid + 2..][end - mid - 2] == ')';
      assert CrossedAt(line, mid);
    }
  }

  lemma BracketIndex(line: string)
    ensures var i := Index(line, "[");
      && ('[' in line <==> i >= 0) && (i >= 0 ==> line[i] == '[')
      && forall k :: 0 <= k < |line| && line[k] == '[' ==> 0 <= i <= k
  {
    var i := Index(line, "[");
    assert i >= 0 ==> line[i..i + 1][0] == '[';
    forall k | 0 <= k < |line| && line[k] == '[' ensures 0 <= i <= k {
      assert OccursAt(line, "[", k);
    }
  }

  lemma ParenthesisIndex(line: string)
    ensures var i := LastIndex(line, ")");
      && (i >= 0 ==> line[i] == ')') && forall k :: 0 <= k < |line| && line[k] == ')' ==> k <= i
  {
    var i := LastIndex(line, ")");
    assert i >= 0 ==> line[i..i + 1][0] == ')';
    forall k | 0 <= k < |line| && line[k] == ')' ensures k <= i {
      assert OccursAt(line, ")", k);
    }
  }

  /** Such a line exists. */
  lemma LinkLineCanFail()
    ensures ParseLinkLine("-](a)[").Panic?
  {
    var line := "-](a)[";
    assert line[1..3] == "](" && line[3..][1] == ')' && line[5] == '[';
    assert CrossedAt(line, 1);
    LinkLinePanicsIff(line);
  }

  // ---- key-value sections ----

  /** The items closed so far, and the open one with its lines. */
  datatype Reading = Reading(items: seq<KVItem>, title: string, lines: seq<string>)

  const NOTHING_READ := Reading([], "", [])

  function Flush(r: Reading): Reading {
    if Trim(r.title) == "" && r.lines == [] then Reading(r.items, "", [])
    else Reading(r.items + [KVItem(Trim(r.title), Trim(Join(r.lines, '\n')))], "", [])
  }

  function ReadLine(r: Reading, line: string): Reading {
    var numbered := ParseNumberedKVLine(line);
    if numbered.Some? then
      var (title, rest) := numbered.value;
      Reading(Flush(r).items, title, if rest != "" then [rest] else [])
    else
      var item := ParseKVLine(line);
      if item.Some? then Reading(Flush(r).items + [item.value], "", [])
      else if r.title == "" then r
      else if HasPrefix(line, "-") then
        var sub := Trim(line[1..]);
        if sub != "" then r.(lines := r.lines + [sub]) else r
      else r.(lines := r.lines + [line])
  }

  function ReadLines(lines: seq<string>): Reading {
    if lines == [] then NOTHING_READ
    else ReadLine(ReadLines(lines[..|lines| - 1]), lines[|lines| - 1])
  }

  function KeyOf(s: string): string {
    ToLower(Trim(s))
  }

  function TitleKey(it: KVItem): string {
    KeyOf(it.title)
  }

  predicate HasTitle(items: seq<KVItem>, key: string) {
    exists k :: 0 <= k < |items| && KeyOf(items[k].title) == key
  }

  /** The first item of each title. */
  function FirstTitles(items: seq<KVItem>): seq<KVItem> {
    if items == [] then []
    else
      var n := |items| - 1;
      var before, key := FirstTitles(items[..n]), KeyOf(items[n].title);
      if key == "" || HasTitle(before, key) then before else before + [items[n]]
  }

  /** parseKVSection on the clean lines of a section. */
  function ParseKV(lines: seq<string>): seq<KVItem> {
    FirstTitles(Flush(ReadLines(lines)).items)
  }

  lemma ReadAppend(lines: seq<string>, l: string)
    ensures ReadLines(lines + [l]) == ReadLine(ReadLines(lines), l)
  {
    assert (lines + [l])[..|lines|] == lines;
  }

  predicate UniqueTitles(items: seq<KVItem>) {
    forall i, j :: 0 <= i < j < |items| ==> KeyOf(items[i].title) != KeyOf(items[j].title)
  }

  lemma {:induction false} NoRepeats(items: seq<KVItem>)
    requires UniqueTitles(items) && forall k :: 0 <= k < |items| ==> KeyOf(items[k].title) != ""
    ensures FirstTitles(items) == items
  {
    if items != [] {
      var n := |items| - 1;
      NoRepeats(items[..n]);
      assert !HasTitle(items[..n], KeyOf(items[n].title));
      assert items == items[..n] + [items[n]];
    }
  }

  lemma {:induction false} FirstTitlesUnique(items: seq<KVItem>)
    ensures UniqueTitles(FirstTitles(items))
  {
    if items != [] {
      FirstTitlesUnique(items[..|items| - 1]);
    }
  }

  lemma ParsedIsUnique(lines: seq<string>)
    ensures UniqueTitles(ParseKV(lines))
  {
    FirstTitlesUnique(Flush(ReadLines(lines)).items);
  }

  lemma ReadNext(lines: seq<string>, i: nat)
    requires i < |lines|
    ensures var before, line := ReadLines(Clean(lines[..i])), Trim(lines[i]);
      ReadLines(Clean(lines[..i + 1])) == if line == "" then before else ReadLine(before, line)
  {
    CleanPrefix(lines, i);
    if Trim(lines[i]) == "" {
      assert Clean(lines[..i]) + [] == Clean(lines[..i]);
    } else {
      ReadAppend(Clean(lines[..i]), Trim(lines[i]));
    }
  }

  method ParseKVSection(lines: seq<string>) returns (out: seq<KVItem>)
    ensures out == ParseKV(Clean(lines))
  {
    var r := NOTHING_READ;
    for i := 0 to |lines|
      invariant r == ReadLines(Clean(lines[..i]))
    {
      ReadNext(lines, i);
      var line := Trim(lines[i]);
      if line == "" {
        continue;
      }
      var numbered := ParseNumberedKVLine(line);
      if numbered.Some? {
        var (title, rest) := numbered.value;
        r := Reading(Flush(r).items, title, if rest != "" then [rest] else []);
        continue;
      }
      var item := ParseKVLine(line);
      if item.Some? {
        r := Reading(Flush(r).items + [item.value], "", []);
        continue;
      }
      if HasPrefix(line, "-") && r.title != "" {
        var sub := Trim(line[1..]);
        if sub != "" {
          r := r.(lines := r.lines + [sub]);
        }
        continue;
      }
      if r.title != "" {
        r := r.(lines := r.lines + [line]);
      }
    }
    assert lines[..|lines|] == lines;
    out := DropRepeats(Flush(r).items);
  }

  method DropRepeats(items: seq<KVItem>) returns (out: seq<KVItem>)
    ensures out == FirstTitles(items)
  {
    out := [];
    var seen: set<string> := {};
    for i := 0 to |items|
      invariant out == FirstTitles(items[..i])
      invariant forall key :: key in seen <==> HasTitle(out, key)
    {
      assert items[..i + 1][..i] == items[..i];
      var key := KeyOf(items[i].title);
      if key == "" || key in seen {
        continue;
      }
      HasTitleAppend(out, items[i]);
      seen := seen + {key};
      out := out + [items[i]];
    }
    assert items[..|items|] == items;
  }

  lemma HasTitleAppend(items: seq<KVItem>, item: KVItem)
    ensures forall key :: HasTitle(items + [item], key) <==> HasTitle(items, key) || key == KeyOf(item.title)
  {
    var all := items + [item];
    forall key ensures HasTitle(all, key) <==> HasTitle(items, key) || key == KeyOf(item.title) {
      if HasTitle(items, key) {
        var k :| 0 <= k < |items| && KeyOf(items[k].title) == key;
        assert all[k] == items[k];
      }
      assert all[|items|] == item;
    }
  }

  // ---- to-do and link sections ----

  function TextKey(it: TaskItem): string {
    KeyOf(it.text)
  }

  predicate HasText(items: seq<TaskItem>, key: string) {
    exists k :: 0 <= k < |items| && KeyOf(items[k].text) == key
  }

  function ParseTodo(lines: seq<string>): seq<TaskItem> {
    if lines == [] then []
    else
      var n := |lines| - 1;
      AddTodo(ParseTodo(lines[..n]), ParseTodoLine(lines[n]))
  }

  function AddTodo(items: seq<TaskItem>, item: Option<TaskItem>): seq<TaskItem> {
    if item.None? || KeyOf(item.value.text) == "" || HasText(items, KeyOf(item.value.text)) then items
    else items + [item.value]
  }

  lemma TodoNext(lines: seq<string>, i: nat)
    requires i < |lines|
    ensures ParseTodo(Clean(lines[..i + 1])) == AddTodo(ParseTodo(Clean(lines[..i])), ParseTodoLine(Trim(lines[i])))
  {
    var before, line := Clean(lines[..i]), Trim(lines[i]);
    CleanPrefix(lines, i);
    if line == "" {
      assert before + [] == before;
    } else {
      assert (before + [line])[..|before|] == before;
    }
  }

  method ParseTodoSection(lines: seq<string>) returns (items: seq<TaskItem>)
    ensures items == ParseTodo(Clean(lines))
  {
    items := [];
    var seen: set<string> := {};
    for i := 0 to |lines|
      invariant items == ParseTodo(Clean(lines[..i]))
      invariant forall key :: key in seen <==> HasText(items, key)
    {
      TodoNext(lines, i);
      var item := ParseTodoLine(Trim(lines[i]));
      if item.None? {
        continue;
      }
      var key := KeyOf(item.value.text);
      if key == "" || key in seen {
        continue;
      }
      HasTextAppend(items, item.value);
      seen := seen + {key};
      items := items + [item.value];
    }
    assert lines[..|lines|] == lines;
  }

  lemma HasTextAppend(items: seq<TaskItem>, item: TaskItem)
    ensures forall key :: HasText(items + [item], key) <==> HasText(items, key) || key == KeyOf(item.text)
  {
    var all := items + [item];
    forall key ensures HasText(all, key) <==> HasText(items, key) || key == KeyOf(item.text) {
      if HasText(items, key) {
        var k :| 0 <= k < |items| && KeyOf(items[k].text) == key;
        assert all[k] == items[k];
      }
      assert all[|items|] == item;
    }
  }

  predicate HasTarget(items: seq<LinkItem>, key: string) {
    exists k :: 0 <= k < |items| && Trim(items[k].target) == key
  }

  /** The links of the lines; None when one of them panics. */
  function ParseLinks(lines: seq<string>): Option<seq<LinkItem>> {
    if lines == [] then Some([])
    else
      var n := |lines| - 1;
      match ParseLinks(lines[..n])
      case None => None
      case Some(before) => AddLink(before, ParseLinkLine(lines[n]))
  }

  function AddLink(items: seq<LinkItem>, read: LinkRead): Option<seq<LinkItem>> {
    match read
    case Panic => None
    case NoLink => Some(items)
    case Link(it) =>
      if Trim(it.target) == "" || HasTarget(items, Trim(it.target)) then Some(items) else Some(items + [it])
  }

  lemma LinksNext(lines: seq<string>, i: nat)
    requires i < |lines|
    ensures ParseLinks(Clean(lines[..i + 1]))
         == match ParseLinks(Clean(lines[..i]))
            case None => None
            case Some(before) => AddLink(before, ParseLinkLine(Trim(lines[i])))
  {
    var before, line := Clean(lines[..i]), Trim(lines[i]);
    CleanPrefix(lines, i);
    if line == "" {
      assert before + [] == before;
    } else {
      assert (before + [line])[..|before|] == before;
    }
  }

  /** Reading a section panics if and only if one of its lines is crossed. */
  lemma {:induction false} LinksPanicIff(lines: seq<string>)
    ensures ParseLinks(lines).None? <==> exists k :: 0 <= k < |lines| && Crossed(lines[k])
  {
    if lines != [] {
      var n := |lines| - 1;
      var before := lines[..n];
      LinksPanicIff(before);
      LinkLinePanicsIff(lines[n]);
      assert forall k :: 0 <= k < n ==> before[k] == lines[k];
      if exists k :: 0 <= k < n && Crossed(before[k]) {
        var k :| 0 <= k < n && Crossed(before[k]);
        assert Crossed(lines[k]);
      }
    }
  }

  method ParseLinkSection(lines: seq<string>) returns (items: Option<seq<LinkItem>>)
    ensures items == ParseLinks(Clean(lines))
  {
    var out: seq<LinkItem> := [];
    var seen: set<string> := {};
    for i := 0 to |lines|
      invariant Some(out) == ParseLinks(Clean(lines[..i]))
      invariant forall key :: key in seen <==> HasTarget(out, key)
    {
      LinksNext(lines, i);
      var read := ParseLinkLine(Trim(lines[i]));
      if read.Panic? {
        LinksEndInPanic(lines, i + 1);
        return None;
      }
      if read.NoLink? {
        continue;
      }
      var key := Trim(read.it.target);
      if key == "" || key in seen {
        continue;
      }
      HasTargetAppend(out, read.it);
      seen := seen + {key};
      out := out + [read.it];
    }
    assert lines[..|lines|] == lines;
    items := Some(out);
  }

  /** A panic ends the reading, whatever follows. */
  lemma {:induction false} LinksEndInPanic(lines: seq<string>, i: nat)
    requires i <= |lines| && ParseLinks(Clean(lines[..i])) == None
    ensures ParseLinks(Clean(lines)) == None
    decreases |lines| - i
  {
    if i < |lines| {
      LinksNext(lines, i);
      LinksEndInPanic(lines, i + 1);
    } else {
      assert lines[..i] == lines;
    }
  }

  lemma HasTargetAppend(items: seq<LinkItem>, item: LinkItem)
    ensures forall key :: HasTarget(items + [item], key) <==> HasTarget(items, key) || key == Trim(item.target)
  {
    var all := items + [item];
    forall key ensures HasTarget(all, key) <==> HasTarget(items, key) || key == Trim(item.target) {
      if HasTarget(items, key) {
        var k :| 0 <= k < |items| && Trim(items[k].target) == key;
        assert all[k] == items[k];
      }
      assert all[|items|] == item;
    }
  }
}
