/** Merging long-term items with their "(added date)" stamps, and the limits on the result
    (memory/merge.go:379-399, 898-1020; memory/update.go:444-471). */
module LongTermMerge {
  import opened Wrappers
  import opened Text
  import opened MemorySections
  import MemoryLines
  import opened MemoryItems
  import KeyPlaces
  import opened LongTerm

  // ---- stamps ----

  const STAMP := "(added "

  predicate IsDate(s: string) {
    |s| == 10 && forall k :: 0 <= k < 10 ==> if k == 4 || k == 7 then s[k] == '-' else IsDigit(s[k])
  }

  predicate EndsClosed(s: string) {
    s != "" && s[|s| - 1] == ')'
  }

  /** A whole stamp: the prefix in any case, a date, a closing parenthesis. */
  predicate IsStamp(s: string) {
    && HasPrefix(ToLower(s), STAMP) && EndsClosed(s) && |STAMP| < |s|
    && IsDate(Trim(s[|STAMP|..|s| - 1]))
  }

  /** extractAddedStamp */
  function StampOf(value: string): Option<string> {
    var trimmed := Trim(value);
    var i := LastIndex(ToLower(trimmed), STAMP);
    if !EndsClosed(trimmed) || i < 0 then None
    else
      var stamp := Trim(trimmed[i..]);
      if IsStamp(stamp) then Some(stamp) else None
  }

  function FormatStamp(date: string): string {
    var d := Trim(date);
    if d == "" then "" else STAMP + d + ")"
  }

  /** appendAddedStamp */
  function AppendStamp(value: string, stamp: string): string {
    var v, s := Trim(value), Trim(stamp);
    if s == "" || StampOf(v).Some? then v
    else if v == "" then s
    else v + " " + s
  }

  lemma LowerAt(s: string, i: nat, j: nat)
    requires i <= j <= |s|
    ensures ToLower(s)[i..j] == ToLower(s[i..j])
  {
  }

  lemma LowerParenthesis(c: char)
    ensures LowerChar(c) == '(' <==> c == '('
  {
  }

  /** The only opening parenthesis of a stamp is its first character. */
  lemma StampShape(s: string)
    requires IsStamp(s)
    ensures s[0] == '(' && '(' !in s[1..]
  {
    var low := ToLower(s);
    LowerParenthesis(s[0]);
    assert low[0] == STAMP[0];
    var inner := s[|STAMP|..|s| - 1];
    var i, j := TrimParts(inner);
    forall k | 1 <= k < |s| ensures s[k] != '(' {
      LowerParenthesis(s[k]);
      if k < |STAMP| {
        assert low[k] == STAMP[k] != '(';
      } else if k < |s| - 1 {
        InnerPlain(inner, i, j, k - |STAMP|);
        assert s[k] == inner[k - |STAMP|];
      }
    }
  }

  lemma InnerPlain(inner: string, i: nat, j: nat, k: nat)
    requires i <= j <= |inner| && Blank(inner[..i]) && Blank(inner[j..]) && IsDate(inner[i..j]) && k < |inner|
    ensures inner[k] != '('
  {
    if k < i {
      assert inner[k] == inner[..i][k];
    } else if k < j {
      assert inner[k] == inner[i..j][k - i];
    } else {
      assert inner[k] == inner[j..][k - j];
    }
  }

  lemma StampIsTrimmed(s: string)
    requires IsStamp(s)
    ensures Trimmed(s)
  {
    StampShape(s);
  }

  /** No stamp opens later than the stamp at the end. */
  lemma StampLast(v: string, n: nat, s: string)
    requires IsStamp(s) && n <= |v| && v[n..] == s
    ensures LastIndex(ToLower(v), STAMP) == n
  {
    var low := ToLower(v);
    StampShape(s);
    LowerAt(v, n, n + |STAMP|);
    LowerAt(s, 0, |STAMP|);
    assert v[n..n + |STAMP|] == s[0..|STAMP|];
    assert ToLower(s)[0..|STAMP|] == STAMP;
    assert OccursAt(low, STAMP, n);
    forall k | n < k <= |low| ensures !OccursAt(low, STAMP, k) {
      NoLaterStamp(v, n, s, k);
    }
  }

  lemma NoLaterStamp(v: string, n: nat, s: string, k: nat)
    requires IsStamp(s) && n <= |v| && v[n..] == s && n < k
    ensures !OccursAt(ToLower(v), STAMP, k)
  {
    var low := ToLower(v);
    StampShape(s);
    if k + |STAMP| <= |low| {
      assert v[k] == s[k - n] == s[1..][k - n - 1];
      LowerParenthesis(v[k]);
      assert low[k..k + |STAMP|][0] == low[k];
      assert STAMP[0] == '(';
    }
  }

  /** Text that ends in a stamp has that stamp. */
  lemma StampAtEnd(v: string, n: nat, s: string)
    requires IsStamp(s) && n <= |v| && v[n..] == s && (n == 0 || !IsSpace(v[0]))
    ensures StampOf(v) == Some(s)
  {
    StampIsTrimmed(s);
    StampShape(s);
    assert v[n] == s[0] && v[|v| - 1] == s[|s| - 1];
    TrimIdle(v);
    TrimIdle(s);
    StampLast(v, n, s);
    EndingStamp(v, n, s);
  }

  lemma EndingStamp(v: string, n: nat, s: string)
    requires Trim(v) == v && Trim(s) == s && EndsClosed(v) && IsStamp(s)
    requires n <= |v| && v[n..] == s && LastIndex(ToLower(v), STAMP) == n
    ensures StampOf(v) == Some(s)
  {
  }

  lemma StampOfTrimmed(value: string)
    ensures StampOf(Trim(value)) == StampOf(value)
  {
    TrimIdempotent(value);
  }

  /** A stamp that was found is a whole stamp. */
  lemma FoundIsStamp(value: string)
    ensures StampOf(value).Some? ==> IsStamp(StampOf(value).value)
  {
  }

  /** Appending a stamp to a value without one gives a value with that stamp; a value with a
      stamp keeps its own. */
  lemma AppendedStamp(value: string, stamp: string)
    requires IsStamp(stamp)
    ensures StampOf(AppendStamp(value, stamp)) == if StampOf(value).Some? then StampOf(value) else Some(stamp)
  {
    var v := Trim(value);
    StampOfTrimmed(value);
    StampIsTrimmed(stamp);
    TrimIdle(stamp);
    var i, j := TrimParts(value);
    if StampOf(v).None? {
      if v == "" {
        assert stamp[0..] == stamp;
        StampAtEnd(stamp, 0, stamp);
      } else {
        assert (v + " " + stamp)[|v| + 1..] == stamp;
        StampAtEnd(v + " " + stamp, |v| + 1, stamp);
      }
    }
  }

  /** The stamp made of a date is a stamp. */
  lemma DateStamp(date: string)
    requires IsDate(date)
    ensures IsStamp(FormatStamp(date)) && FormatStamp(date) != ""
  {
    assert IsDigit(date[0]) && IsDigit(date[9]);
    TrimIdle(date);
    var s := STAMP + date + ")";
    assert s[|STAMP|..|s| - 1] == date;
    LowerAt(s, 0, |STAMP|);
    assert s[0..|STAMP|] == STAMP;
    StampIsLower();
    assert ToLower(s)[0..|STAMP|] == STAMP;
  }

  lemma StampIsLower()
    ensures ToLower(STAMP) == STAMP
  {
  }

  // ---- merging ----

  /** normalizeKVItems */
  function Normalize(items: seq<KVItem>): seq<KVItem> {
    if items == [] then []
    else
      var before, it := Normalize(items[..|items| - 1]), items[|items| - 1];
      var title, value := Trim(it.title), Trim(it.value);
      var shown := if title == "" then "Item" else title;
      if (title == "" && value == "") || HasTitle(before, KeyOf(shown)) then before
      else before + [KVItem(shown, value)]
  }

  method NormalizeKVItems(items: seq<KVItem>) returns (out: seq<KVItem>)
    ensures out == Normalize(items)
  {
    out := [];
    var seen: set<string> := {};
    for i := 0 to |items|
      invariant out == Normalize(items[..i])
      invariant forall key :: key in seen <==> HasTitle(out, key)
    {
      assert items[..i + 1][..i] == items[..i];
      var title, value := Trim(items[i].title), Trim(items[i].value);
      if title == "" && value == "" {
        continue;
      }
      if title == "" {
        title := "Item";
      }
      var key := KeyOf(title);
      if key in seen {
        continue;
      }
      HasTitleAppend(out, KVItem(title, value));
      seen := seen + {key};
      out := out + [KVItem(title, value)];
    }
    assert items[..|items|] == items;
  }

  /** A value with its own stamp, or else the given one. */
  function WithStamp(value: string, stamp: Option<string>): string {
    if StampOf(value).None? && stamp.Some? then AppendStamp(value, stamp.value) else value
  }

  /** The incoming item in place of an old one. */
  function Restamped(old_: KVItem, stamp: Option<string>, it: KVItem): KVItem {
    KVItem(Trim(it.title), WithStamp(if Trim(it.value) == "" then Trim(old_.value) else Trim(it.value), stamp))
  }

  function DayStamp(date: string): Option<string> {
    if Trim(date) == "" then None else Some(FormatStamp(date))
  }

  function Stamped(it: KVItem, date: string): KVItem {
    KVItem(Trim(it.title), WithStamp(Trim(it.value), DayStamp(date)))
  }

  /** The last stamp the existing items carry under a key. */
  function StampFor(existing: seq<KVItem>, key: string): Option<string> {
    if existing == [] then None
    else
      var n := |existing| - 1;
      if KeyOf(existing[n].title) == key && key != "" && StampOf(existing[n].value).Some?
      then StampOf(existing[n].value)
      else StampFor(existing[..n], key)
  }

  function MergeItem(existing: seq<KVItem>, order: seq<KVItem>, it: KVItem, date: string): seq<KVItem> {
    var key := KeyOf(it.title);
    var i := KeyPlaces.LastPlace(TitleKey, order, key);
    if key == "" then order
    else if i < |order| then order[i := Restamped(order[i], StampFor(existing, key), it)]
    else order + [Stamped(it, date)]
  }

  function WithTitle(items: seq<KVItem>): seq<KVItem> {
    if items == [] then []
    else
      var before, it := WithTitle(items[..|items| - 1]), items[|items| - 1];
      if KeyOf(it.title) == "" then before else before + [it]
  }

  function MergeOnto(existing: seq<KVItem>, incoming: seq<KVItem>, date: string): seq<KVItem> {
    if incoming == [] then WithTitle(existing)
    else
      var n := |incoming| - 1;
      MergeItem(existing, MergeOnto(existing, incoming[..n], date), incoming[n], date)
  }

  /** mergeLongTermKV */
  function MergeKV(existing: seq<KVItem>, incoming: seq<KVItem>, date: string): seq<KVItem> {
    if incoming == [] then existing else MergeOnto(existing, incoming, date)
  }

  ghost predicate HoldsStamps(stamps: map<string, string>, existing: seq<KVItem>) {
    forall key :: StampFor(existing, key) == if key in stamps then Some(stamps[key]) else None
  }

  method LoadExisting(existing: seq<KVItem>)
    returns (order: seq<KVItem>, index: map<string, nat>, stamps: map<string, string>)
    ensures order == WithTitle(existing) && KeyPlaces.Indexes(TitleKey, index, order) && HoldsStamps(stamps, existing)
  {
    order, index, stamps := [], map[], map[];
    for i := 0 to |existing|
      invariant order == WithTitle(existing[..i]) && KeyPlaces.Indexes(TitleKey, index, order)
      invariant HoldsStamps(stamps, existing[..i])
    {
      assert existing[..i + 1][..i] == existing[..i];
      ghost var was := stamps;
      var key := KeyOf(existing[i].title);
      if key == "" {
        continue;
      }
      KeyPlaces.IndexesAppended(TitleKey, index, order, existing[i]);
      index := index[key := |order|];
      order := order + [existing[i]];
      var stamp := StampOf(existing[i].value);
      if stamp.Some? {
        stamps := stamps[key := stamp.value];
      }
    }
    assert existing[..|existing|] == existing;
  }

  method MergeLongTermKV(existing: seq<KVItem>, incoming: seq<KVItem>, date: string) returns (order: seq<KVItem>)
    ensures order == MergeKV(existing, incoming, date)
  {
    if incoming == [] {
      return existing;
    }
    var index: map<string, nat>, stamps: map<string, string>;
    order, index, stamps := LoadExisting(existing);
    for i := 0 to |incoming|
      invariant order == MergeOnto(existing, incoming[..i], date) && KeyPlaces.Indexes(TitleKey, index, order)
    {
      assert incoming[..i + 1][..i] == incoming[..i];
      var key := KeyOf(incoming[i].title);
      KeyPlaces.IndexesAt(TitleKey, index, order, key);
      if key == "" {
        continue;
      }
      TrimIdempotent(incoming[i].title);
      if key in index {
        assert StampFor(existing, key) == if key in stamps then Some(stamps[key]) else None;
        var it := Restamped(order[index[key]], if key in stamps then Some(stamps[key]) else None, incoming[i]);
        KeyPlaces.IndexesReplaced(TitleKey, index, order, index[key], it);
        order := order[index[key] := it];
        continue;
      }
      var it := Stamped(incoming[i], date);
      KeyPlaces.IndexesAppended(TitleKey, index, order, it);
      index := index[key := |order|];
      order := order + [it];
    }
    assert incoming[..|incoming|] == incoming;
  }

  // ---- stamps over a merge ----

  /** Titles with a key, no two alike, as reading a file gives them. */
  predicate Keyed(items: seq<KVItem>) {
    && (forall k :: 0 <= k < |items| ==> KeyOf(items[k].title) != "")
    && (forall i, j :: 0 <= i < j < |items| ==> KeyOf(items[i].title) != KeyOf(items[j].title))
  }

  predicate Present(items: seq<KVItem>, key: string) {
    KeyPlaces.LastPlace(TitleKey, items, key) < |items|
  }

  /** The stamp a key's item carries. */
  function StampUnder(items: seq<KVItem>, key: string): Option<string> {
    var i := KeyPlaces.LastPlace(TitleKey, items, key);
    if i < |items| then StampOf(items[i].value) else None
  }

  lemma {:induction false} StampForIs(existing: seq<KVItem>, key: string)
    requires Keyed(existing) && key != ""
    ensures StampFor(existing, key) == StampUnder(existing, key)
  {
    if existing != [] {
      var n := |existing| - 1;
      KeyedPrefix(existing);
      StampForIs(existing[..n], key);
      if KeyOf(existing[n].title) == key {
        NotEarlier(existing, key);
      }
    }
  }

  lemma KeptStamp(value: string, stamp: Option<string>)
    requires stamp.Some? ==> IsStamp(stamp.value)
    ensures StampOf(WithStamp(value, stamp)) == if StampOf(value).Some? then StampOf(value) else stamp
  {
    if stamp.Some? {
      AppendedStamp(value, stamp.value);
    }
  }

  lemma {:induction false} WithTitleIdle(items: seq<KVItem>)
    requires Keyed(items)
    ensures WithTitle(items) == items
  {
    if items != [] {
      WithTitleIdle(items[..|items| - 1]);
      MemoryLines.SplitLast(items);
    }
  }

  lemma MergeItemKeyed(existing: seq<KVItem>, order: seq<KVItem>, it: KVItem, date: string)
    requires Keyed(order)
    ensures Keyed(MergeItem(existing, order, it, date))
  {
    TrimIdempotent(it.title);
  }

  /** The value under a key. */
  function ValueUnder(items: seq<KVItem>, key: string): Option<string> {
    var i := KeyPlaces.LastPlace(TitleKey, items, key);
    if i < |items| then Some(items[i].value) else None
  }

  /** The value under a key after a merge, from the one before and the incoming one. */
  function MergedValue(old_: Option<string>, brought: Option<string>, date: string): Option<string> {
    match brought
    case None => old_
    case Some(w) =>
      match old_
      case None => Some(WithStamp(Trim(w), DayStamp(date)))
      case Some(v) => Some(WithStamp(if Trim(w) == "" then Trim(v) else Trim(w), StampOf(v)))
  }

  lemma KeyedPrefix(items: seq<KVItem>)
    requires Keyed(items) && items != []
    ensures Keyed(items[..|items| - 1])
  {
  }

  /** The last item's key is not among the earlier ones. */
  lemma NotEarlier(items: seq<KVItem>, key: string)
    requires Keyed(items) && items != [] && KeyOf(items[|items| - 1].title) == key
    ensures ValueUnder(items[..|items| - 1], key) == None && StampUnder(items[..|items| - 1], key) == None
    ensures ValueUnder(items, key) == Some(items[|items| - 1].value)
    ensures StampUnder(items, key) == StampOf(items[|items| - 1].value)
  {
    KeyPlaces.LastPlaceIs(TitleKey, items[..|items| - 1], key, |items| - 1);
  }

  lemma OtherLast(items: seq<KVItem>, key: string)
    requires items != [] && KeyOf(items[|items| - 1].title) != key
    ensures ValueUnder(items, key) == ValueUnder(items[..|items| - 1], key)
  {
  }

  lemma OwnKeyMerges(existing: seq<KVItem>, order: seq<KVItem>, it: KVItem, date: string, key: string)
    requires key != "" && KeyOf(it.title) == key && Keyed(existing)
    requires ValueUnder(order, key) == ValueUnder(existing, key)
    ensures ValueUnder(MergeItem(existing, order, it, date), key)
         == MergedValue(ValueUnder(existing, key), Some(it.value), date)
  {
    var i := KeyPlaces.LastPlace(TitleKey, order, key);
    StampForIs(existing, key);
    TrimIdempotent(it.title);
    if i < |order| {
      KeyPlaces.LastPlaceReplaced(TitleKey, order, i, Restamped(order[i], StampFor(existing, key), it), key);
    } else {
      KeyPlaces.LastPlaceAppended(TitleKey, order, Stamped(it, date), key);
    }
  }

  lemma OtherKeyMerges(existing: seq<KVItem>, order: seq<KVItem>, it: KVItem, date: string, key: string)
    requires KeyOf(it.title) != key
    ensures ValueUnder(MergeItem(existing, order, it, date), key) == ValueUnder(order, key)
  {
    var k := KeyOf(it.title);
    var i := KeyPlaces.LastPlace(TitleKey, order, k);
    if k != "" {
      TrimIdempotent(it.title);
      if i < |order| {
        KeyPlaces.LastPlaceReplaced(TitleKey, order, i, Restamped(order[i], StampFor(existing, k), it), key);
      } else {
        KeyPlaces.LastPlaceAppended(TitleKey, order, Stamped(it, date), key);
      }
    }
  }

  lemma {:induction false} MergeOntoValues(existing: seq<KVItem>, incoming: seq<KVItem>, date: string, key: string)
    requires Keyed(existing) && Keyed(incoming) && key != ""
    ensures ValueUnder(MergeOnto(existing, incoming, date), key)
         == MergedValue(ValueUnder(existing, key), ValueUnder(incoming, key), date)
  {
    if incoming == [] {
      WithTitleIdle(existing);
    } else {
      var n := |incoming| - 1;
      var order := MergeOnto(existing, incoming[..n], date);
      KeyedPrefix(incoming);
      MergeOntoValues(existing, incoming[..n], date, key);
      if KeyOf(incoming[n].title) == key {
        NotEarlier(incoming, key);
        OwnKeyMerges(existing, order, incoming[n], date, key);
      } else {
        OtherLast(incoming, key);
        OtherKeyMerges(existing, order, incoming[n], date, key);
      }
    }
  }

  /** Main result: what a merge leaves under each key. */
  lemma MergeKVValues(existing: seq<KVItem>, incoming: seq<KVItem>, date: string, key: string)
    requires Keyed(existing) && Keyed(incoming) && key != ""
    ensures ValueUnder(MergeKV(existing, incoming, date), key)
         == MergedValue(ValueUnder(existing, key), ValueUnder(incoming, key), date)
  {
    MergeOntoValues(existing, incoming, date, key);
  }

  lemma {:induction false} NormalizeIsKeyed(items: seq<KVItem>)
    ensures Keyed(Normalize(items))
  {
    if items != [] {
      NormalizeIsKeyed(items[..|items| - 1]);
      var title := Trim(items[|items| - 1].title);
      TrimIdempotent(items[|items| - 1].title);
      TrimIdle("Item");
    }
  }

  lemma {:induction false} MergeOntoKeyed(existing: seq<KVItem>, incoming: seq<KVItem>, date: string)
    requires Keyed(existing)
    ensures Keyed(MergeOnto(existing, incoming, date)) && Keyed(MergeKV(existing, incoming, date))
  {
    if incoming == [] {
      WithTitleIdle(existing);
    } else {
      var n := |incoming| - 1;
      MergeOntoKeyed(existing, incoming[..n], date);
      MergeItemKeyed(existing, MergeOnto(existing, incoming[..n], date), incoming[n], date);
    }
  }

  /** A merge changes a present key's stamp only to the incoming one. */
  lemma MergeKVStamps(existing: seq<KVItem>, incoming: seq<KVItem>, date: string, key: string)
    requires Keyed(existing) && Keyed(incoming) && Present(existing, key) && key != ""
    ensures var after := MergeKV(existing, incoming, date);
      && Present(after, key)
      && StampUnder(after, key)
         == if StampUnder(incoming, key).Some? then StampUnder(incoming, key) else StampUnder(existing, key)
  {
    MergeKVValues(existing, incoming, date, key);
    var v, brought := ValueUnder(existing, key).value, ValueUnder(incoming, key);
    if brought.Some? {
      var w := brought.value;
      StampOfTrimmed(v);
      StampOfTrimmed(w);
      FoundIsStamp(v);
      KeptStamp(if Trim(w) == "" then Trim(v) else Trim(w), StampOf(v));
    }
  }

  /** A key that is new gets its own stamp, or the stamp of the day. */
  lemma NewKeyIsStamped(it: KVItem, date: string)
    requires IsDate(date)
    ensures StampOf(Stamped(it, date).value)
         == if StampOf(it.value).Some? then StampOf(it.value) else Some(FormatStamp(date))
  {
    DateStamp(date);
    StampOfTrimmed(it.value);
    StampOfTrimmed(Trim(it.value));
    TrimIdle(date);
    AppendedStamp(Trim(it.value), FormatStamp(date));
  }

  // ---- the limits ----

  const MAX_ITEMS: nat := 100
  const MAX_CHARS: nat := 3000

  /** dropOldestLongTerm: from the longer list, from the goals on a tie. */
  function DropOldest(c: Content): Content {
    if c.goals == [] && c.facts == [] then c
    else if |c.goals| >= |c.facts| then c.(goals := c.goals[1..])
    else c.(facts := c.facts[1..])
  }

  function Size(c: Content): nat {
    |c.goals| + |c.facts|
  }

  predicate WithinLimits(c: Content) {
    Size(c) <= MAX_ITEMS && |Build(c)| <= MAX_CHARS
  }

  function Dropped(c: Content, n: nat): Content {
    if n == 0 then c else DropOldest(Dropped(c, n - 1))
  }

  lemma DropSize(c: Content)
    ensures Size(DropOldest(c)) == if Size(c) == 0 then 0 else Size(c) - 1
  {
  }

  lemma {:induction false} DroppedSize(c: Content, n: nat)
    ensures Size(Dropped(c, n)) == if n <= Size(c) then Size(c) - n else 0
  {
    if n > 0 {
      DroppedSize(c, n - 1);
      DropSize(Dropped(c, n - 1));
    }
  }

  predicate IsSuffix(a: seq<KVItem>, b: seq<KVItem>) {
    |a| <= |b| && a == b[|b| - |a|..]
  }

  lemma {:induction false} DroppedSuffix(c: Content, n: nat)
    ensures IsSuffix(Dropped(c, n).goals, c.goals) && IsSuffix(Dropped(c, n).facts, c.facts)
  {
    if n > 0 {
      DroppedSuffix(c, n - 1);
      var b := Dropped(c, n - 1);
      SuffixRest(b.goals, c.goals);
      SuffixRest(b.facts, c.facts);
    }
  }

  lemma SuffixRest(a: seq<KVItem>, b: seq<KVItem>)
    requires IsSuffix(a, b)
    ensures a != [] ==> IsSuffix(a[1..], b)
  {
  }

  /** An empty body is far below the limit, so the second loop ends within it. */
  lemma EmptyIsWithin(c: Content)
    requires Size(c) == 0
    ensures |Build(c)| <= MAX_CHARS
  {
    var h1, h2 := MemoryLines.Header(LONG_GOALS), MemoryLines.Header(LONG_FACTS);
    assert ItemLines(c.goals) == [] && ItemLines(c.facts) == [];
    var lines := [TITLE, "", h1, "", h2, ""];
    assert BodyLines(c) == lines;
    assert lines == [TITLE, "", h1] + ["", h2, ""];
    UnlinesAppend([TITLE, "", h1], ["", h2, ""]);
    ThreeLong(TITLE, "", h1);
    ThreeLong("", h2, "");
    TrimShorter(Unlines(lines));
  }

  lemma ThreeLong(x: string, y: string, z: string)
    ensures |Unlines([x, y, z])| == |x| + |y| + |z| + 3
  {
    assert [x, y, z] == [x] + ([y] + [z]);
    UnlinesAppend([x], [y] + [z]);
    UnlinesAppend([y], [z]);
    MemoryLines.LineText(x);
    MemoryLines.LineText(y);
    MemoryLines.LineText(z);
  }

  /** Fewer than n drops do not bring the content within the limits. */
  ghost predicate NotBefore(c: Content, n: nat) {
    forall m :: 0 <= m < n ==> !WithinLimits(Dropped(c, m))
  }

  lemma OneMoreDrop(c: Content, n: nat)
    requires NotBefore(c, n) && !WithinLimits(Dropped(c, n))
    ensures NotBefore(c, n + 1) && Dropped(c, n + 1) == DropOldest(Dropped(c, n))
  {
  }

  /** Main result: enforcement ends, and leaves suffixes of both lists within both limits, with
      the fewest items dropped. */
  method EnforceLongTermLimits(c: Content) returns (out: Content, ghost n: nat)
    ensures out == Dropped(c, n) && NotBefore(c, n)
    ensures Size(out) <= MAX_ITEMS && |Build(out)| <= MAX_CHARS
    ensures IsSuffix(out.goals, c.goals) && IsSuffix(out.facts, c.facts)
  {
    out, n := c, 0;
    while |out.goals| + |out.facts| > MAX_ITEMS
      invariant out == Dropped(c, n) && NotBefore(c, n)
      decreases Size(out)
    {
      OneMoreDrop(c, n);
      DropSize(out);
      out, n := DropOldest(out), n + 1;
    }
    out, n := LimitChars(c, out, n);
    DroppedSuffix(c, n);
  }

  method LimitChars(ghost c: Content, first: Content, ghost k: nat) returns (out: Content, ghost n: nat)
    requires first == Dropped(c, k) && NotBefore(c, k) && Size(first) <= MAX_ITEMS
    ensures out == Dropped(c, n) && NotBefore(c, n)
    ensures Size(out) <= MAX_ITEMS && |Build(out)| <= MAX_CHARS
  {
    out, n := first, k;
    var body := BuildLongTermBody(out);
    while |body| > MAX_CHARS
      invariant out == Dropped(c, n) && NotBefore(c, n)
      invariant body == Build(out) && Size(out) <= MAX_ITEMS
      decreases Size(out)
    {
      OneMoreDrop(c, n);
      DropSize(out);
      EmptyMayStop(out);
      out, n := DropOldest(out), n + 1;
      body := BuildLongTermBody(out);
      if out.goals == [] && out.facts == [] {
        EmptyIsWithin(out);
        break;
      }
    }
  }

  lemma EmptyMayStop(c: Content)
    ensures |Build(c)| > MAX_CHARS ==> Size(c) > 0
  {
    if Size(c) == 0 {
      EmptyIsWithin(c);
    }
  }

  /** Some number of drops is enough. */
  lemma EnoughDrops(c: Content)
    ensures WithinLimits(Dropped(c, Size(c)))
  {
    DroppedSize(c, Size(c));
    EmptyIsWithin(Dropped(c, Size(c)));
  }
}
