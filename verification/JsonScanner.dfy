/** The brace scanner that cuts the first JSON object out of free text
    (agent/parser.go), against the grammar of RFC 8259, sections 2 to 7. */
module JsonScanner {
  import opened Wrappers
  import opened Text

  // ---- the scanner ----

  datatype Scan = Scan(depth: int, inString: bool, escaped: bool)

  const START := Scan(0, false, false)

  /** Between tokens, `d` braces deep. */
  function At(d: int): Scan {
    Scan(d, false, false)
  }

  /** One byte; None when it closes the outermost brace. */
  function Step(st: Scan, c: char): Option<Scan> {
    if st.escaped then Some(st.(escaped := false))
    else if c == '\\' && st.inString then Some(st.(escaped := true))
    else if c == '"' then Some(st.(inString := !st.inString))
    else if st.inString then Some(st)
    else if c == '{' then Some(st.(depth := st.depth + 1))
    else if c == '}' then if st.depth == 1 then None else Some(st.(depth := st.depth - 1))
    else Some(st)
  }

  /** Reading all of `s` without closing the outermost brace. */
  function Feed(st: Scan, s: string): Option<Scan>
    decreases |s|
  {
    if s == "" then Some(st)
    else match Step(st, s[0])
      case None => None
      case Some(next) => Feed(next, s[1..])
  }

  /** How many bytes of `s` it takes to close the outermost brace, if it is closed at all. */
  function Extent(st: Scan, s: string): (r: Option<nat>)
    ensures r.Some? ==> 1 <= r.value <= |s|
    decreases |s|
  {
    if s == "" then None
    else match Step(st, s[0])
      case None => Some(1)
      case Some(next) =>
        match Extent(next, s[1..])
        case None => None
        case Some(n) => Some(n + 1)
  }

  /** Where in `text` the scan that stands before index `i` ends. */
  function End(text: string, i: nat, st: Scan): (r: Option<nat>)
    requires i <= |text|
    ensures r.Some? ==> i < r.value <= |text|
    decreases |text| - i
  {
    if i == |text| then None
    else match Step(st, text[i])
      case None => Some(i + 1)
      case Some(next) => End(text, i + 1, next)
  }

  /** The text the scanner returns; empty when there is no object. */
  function Extracted(text: string): string {
    var start := Index(text, "{");
    if start < 0 then ""
    else match End(text, start, START)
      case None => ""
      case Some(n) => text[start..n]
  }

  method ExtractJSONObject(text: string) returns (r: string)
    ensures r == Extracted(text)
  {
    var start := Index(text, "{");
    if start < 0 {
      return "";
    }
    var depth, inString, escaped := 0, false, false;
    for i := start to |text|
      invariant End(text, start, START) == End(text, i, Scan(depth, inString, escaped))
    {
      var c := text[i];
      if escaped {
        escaped := false;
        continue;
      }
      if c == '\\' && inString {
        escaped := true;
        continue;
      }
      if c == '"' {
        inString := !inString;
        continue;
      }
      if inString {
        continue;
      }
      if c == '{' {
        depth := depth + 1;
      } else if c == '}' {
        depth := depth - 1;
        if depth == 0 {
          return text[start..i + 1];
        }
      }
    }
    return "";
  }

  lemma {:induction false} EndIsExtent(text: string, i: nat, st: Scan)
    requires i <= |text|
    ensures End(text, i, st) == match Extent(st, text[i..]) case None => None case Some(n) => Some(i + n)
    decreases |text| - i
  {
    if i < |text| {
      assert text[i..][0] == text[i] && text[i..][1..] == text[i + 1..];
      match Step(st, text[i])
      case None =>
      case Some(next) => EndIsExtent(text, i + 1, next);
    }
  }

  // ---- the grammar ----

  datatype StringPiece =
    | Plain(c: char)
    | Escape(c: char)
    | Unicode(hex: string)

  datatype Exponent = Exponent(letter: char, sign: string, digits: string)

  datatype Number = Number(minus: bool, whole: string, frac: Option<string>, exp: Option<Exponent>)

  datatype Value =
    | Null
    | True
    | False
    | Num(n: Number)
    | Str(pieces: seq<StringPiece>)
    | Arr(gap: string, items: Items)
    | Obj(gap: string, members: Members)

  /** Array elements; the `before` and `after` blanks belong to the separators around them. */
  datatype Items =
    | NoItems
    | Item(before: string, v: Value, after: string, rest: Items)

  datatype Members =
    | NoMembers
    | Member(before: string, key: seq<StringPiece>, preColon: string, postColon: string,
             v: Value, after: string, rest: Members)

  predicate IsWs(s: string) {
    forall k :: 0 <= k < |s| ==> s[k] == ' ' || s[k] == '\t' || s[k] == '\n' || s[k] == '\r'
  }

  predicate IsHex(c: char) {
    IsDigit(c) || 'a' <= c <= 'f' || 'A' <= c <= 'F'
  }

  predicate ValidPiece(p: StringPiece) {
    match p
    case Plain(c) => c != '"' && c != '\\' && c >= ' '
    case Escape(c) => c in "\"\\/bfnrt"
    case Unicode(h) => |h| == 4 && forall k :: 0 <= k < 4 ==> IsHex(h[k])
  }

  predicate ValidPieces(ps: seq<StringPiece>) {
    forall k :: 0 <= k < |ps| ==> ValidPiece(ps[k])
  }

  predicate ValidNumber(n: Number) {
    && n.whole != "" && AllDigits(n.whole) && (n.whole[0] == '0' ==> |n.whole| == 1)
    && (n.frac.Some? ==> n.frac.value != "" && AllDigits(n.frac.value))
    && (n.exp.Some? ==>
          && n.exp.value.letter in "eE" && n.exp.value.sign in ["", "+", "-"]
          && n.exp.value.digits != "" && AllDigits(n.exp.value.digits))
  }

  predicate ValidValue(v: Value) {
    match v
    case Num(n) => ValidNumber(n)
    case Str(ps) => ValidPieces(ps)
    case Arr(gap, items) => IsWs(gap) && ValidItems(items)
    case Obj(gap, members) => IsWs(gap) && ValidMembers(members)
    case _ => true
  }

  predicate ValidItems(items: Items) {
    match items
    case NoItems => true
    case Item(b, v, a, rest) => IsWs(b) && ValidValue(v) && IsWs(a) && ValidItems(rest)
  }

  predicate ValidMembers(ms: Members) {
    match ms
    case NoMembers => true
    case Member(b, key, c0, c1, v, a, rest) =>
      && IsWs(b) && ValidPieces(key) && IsWs(c0) && IsWs(c1)
      && ValidValue(v) && IsWs(a) && ValidMembers(rest)
  }

  function PieceText(p: StringPiece): string {
    match p
    case Plain(c) => [c]
    case Escape(c) => ['\\', c]
    case Unicode(h) => "\\u" + h
  }

  function PiecesText(ps: seq<StringPiece>): string {
    if ps == [] then "" else PieceText(ps[0]) + PiecesText(ps[1..])
  }

  function StringText(ps: seq<StringPiece>): string {
    "\"" + PiecesText(ps) + "\""
  }

  function NumberText(n: Number): string {
    (if n.minus then "-" else "") + n.whole
    + (if n.frac.Some? then "." + n.frac.value else "")
    + (if n.exp.Some? then [n.exp.value.letter] + n.exp.value.sign + n.exp.value.digits else "")
  }

  function ValueText(v: Value): string {
    match v
    case Null => "null"
    case True => "true"
    case False => "false"
    case Num(n) => NumberText(n)
    case Str(ps) => StringText(ps)
    case Arr(gap, items) => "[" + (if items.NoItems? then gap else ItemsText(items)) + "]"
    case Obj(gap, members) => "{" + ObjectBody(gap, members) + "}"
  }

  function ItemsText(items: Items): string
    requires items.Item?
  {
    var Item(b, v, a, rest) := items;
    b + ValueText(v) + a + (if rest.NoItems? then "" else "," + ItemsText(rest))
  }

  function ObjectBody(gap: string, ms: Members): string
    decreases ms, 1
  {
    if ms.NoMembers? then gap else MembersText(ms)
  }

  function MembersText(ms: Members): string
    requires ms.Member?
    decreases ms, 0
  {
    var Member(b, key, c0, c1, v, a, rest) := ms;
    b + StringText(key) + c0 + ":" + c1 + ValueText(v) + a
    + (if rest.NoMembers? then "" else "," + MembersText(rest))
  }

  // ---- feeding grammar texts to the scanner ----

  lemma {:induction false} FeedAppend(st: Scan, a: string, b: string)
    ensures Feed(st, a + b) == match Feed(st, a) case None => None case Some(mid) => Feed(mid, b)
    decreases |a|
  {
    if a == "" {
      assert a + b == b;
    } else {
      assert (a + b)[0] == a[0] && (a + b)[1..] == a[1..] + b;
      match Step(st, a[0])
      case None =>
      case Some(next) => FeedAppend(next, a[1..], b);
    }
  }

  /** Text the scanner walks through without a change of state. */
  predicate Quiet(d: int, s: string) {
    Feed(At(d), s) == Some(At(d))
  }

  lemma QuietAppend(d: int, a: string, b: string)
    requires Quiet(d, a) && Quiet(d, b)
    ensures Quiet(d, a + b)
  {
    FeedAppend(At(d), a, b);
  }

  lemma {:induction false} QuietPlain(d: int, s: string)
    requires forall k :: 0 <= k < |s| ==> s[k] !in "\"{}"
    ensures Quiet(d, s)
  {
    if s != "" {
      assert s[0] !in "\"{}";
      QuietPlain(d, s[1..]);
    }
  }

  lemma QuietNumber(d: int, n: Number)
    requires ValidNumber(n)
    ensures Quiet(d, NumberText(n))
  {
    var sign := if n.minus then "-" else "";
    var frac := if n.frac.Some? then "." + n.frac.value else "";
    var exp := if n.exp.Some? then [n.exp.value.letter] + n.exp.value.sign + n.exp.value.digits else "";
    QuietPlain(d, sign);
    QuietPlain(d, n.whole);
    QuietPlain(d, frac);
    QuietPlain(d, exp);
    QuietAppend(d, sign, n.whole);
    QuietAppend(d, sign + n.whole, frac);
    QuietAppend(d, sign + n.whole + frac, exp);
  }

  function InString(d: int): Scan {
    Scan(d, true, false)
  }

  lemma {:induction false} FeedInString(d: int, s: string)
    requires forall k :: 0 <= k < |s| ==> s[k] != '"' && s[k] != '\\'
    ensures Feed(InString(d), s) == Some(InString(d))
  {
    if s != "" {
      FeedInString(d, s[1..]);
    }
  }

  lemma FeedPiece(d: int, p: StringPiece)
    requires ValidPiece(p)
    ensures Feed(InString(d), PieceText(p)) == Some(InString(d))
  {
    match p
    case Plain(c) =>
      FeedInString(d, [c]);
    case Escape(c) =>
      assert ['\\', c][1..] == [c] && [c][1..] == "";
      assert Feed(Scan(d, true, true), [c]) == Feed(InString(d), "");
    case Unicode(h) =>
      assert ("\\u" + h)[1..] == "u" + h && ("u" + h)[1..] == h;
      FeedInString(d, h);
  }

  lemma {:induction false} FeedPieces(d: int, ps: seq<StringPiece>)
    requires ValidPieces(ps)
    ensures Feed(InString(d), PiecesText(ps)) == Some(InString(d))
  {
    if ps != [] {
      FeedPiece(d, ps[0]);
      FeedPieces(d, ps[1..]);
      FeedAppend(InString(d), PieceText(ps[0]), PiecesText(ps[1..]));
    }
  }

  lemma QuietString(d: int, ps: seq<StringPiece>)
    requires ValidPieces(ps)
    ensures Quiet(d, StringText(ps))
  {
    FeedPieces(d, ps);
    FeedAppend(InString(d), PiecesText(ps), "\"");
    assert ("\"" + PiecesText(ps) + "\"")[1..] == PiecesText(ps) + "\"";
    assert "\""[1..] == "";
  }

  lemma {:induction false} QuietValue(d: int, v: Value)
    requires d >= 1 && ValidValue(v)
    ensures Quiet(d, ValueText(v))
    decreases v
  {
    match v
    case Null => QuietPlain(d, "null");
    case True => QuietPlain(d, "true");
    case False => QuietPlain(d, "false");
    case Num(n) => QuietNumber(d, n);
    case Str(ps) => QuietString(d, ps);
    case Arr(gap, items) =>
      var body := if items.NoItems? then gap else ItemsText(items);
      if items.NoItems? { QuietPlain(d, gap); } else { QuietItems(d, items); }
      QuietPlain(d, "[");
      QuietPlain(d, "]");
      QuietAppend(d, "[", body);
      QuietAppend(d, "[" + body, "]");
    case Obj(gap, members) =>
      var body := ObjectBody(gap, members);
      QuietBody(d + 1, gap, members);
      FeedAppend(At(d + 1), body, "}");
      assert ("{" + body + "}")[1..] == body + "}";
      assert "}"[1..] == "";
  }

  lemma {:induction false} QuietItems(d: int, items: Items)
    requires d >= 1 && items.Item? && ValidItems(items)
    ensures Quiet(d, ItemsText(items))
    decreases items
  {
    var Item(b, v, a, rest) := items;
    var tail := if rest.NoItems? then "" else "," + ItemsText(rest);
    if rest.Item? {
      QuietItems(d, rest);
      QuietPlain(d, ",");
      QuietAppend(d, ",", ItemsText(rest));
    }
    QuietPlain(d, b);
    QuietValue(d, v);
    QuietPlain(d, a);
    QuietAppend(d, b, ValueText(v));
    QuietAppend(d, b + ValueText(v), a);
    QuietAppend(d, b + ValueText(v) + a, tail);
  }

  lemma {:induction false} QuietBody(d: int, gap: string, ms: Members)
    requires d >= 1 && IsWs(gap) && ValidMembers(ms)
    ensures Quiet(d, ObjectBody(gap, ms))
    decreases ms, 1
  {
    if ms.NoMembers? { QuietPlain(d, gap); } else { QuietMembers(d, ms); }
  }

  lemma {:induction false} QuietMembers(d: int, ms: Members)
    requires d >= 1 && ms.Member? && ValidMembers(ms)
    ensures Quiet(d, MembersText(ms))
    decreases ms, 0
  {
    var Member(b, key, c0, c1, v, a, rest) := ms;
    var tail := if rest.NoMembers? then "" else "," + MembersText(rest);
    if rest.Member? {
      QuietMembers(d, rest);
      QuietPlain(d, ",");
      QuietAppend(d, ",", MembersText(rest));
    }
    QuietPlain(d, b);
    QuietString(d, key);
    QuietPlain(d, c0);
    QuietPlain(d, ":");
    QuietPlain(d, c1);
    QuietValue(d, v);
    QuietPlain(d, a);
    var k := b + StringText(key);
    QuietAppend(d, b, StringText(key));
    QuietAppend(d, k, c0);
    QuietAppend(d, k + c0, ":");
    QuietAppend(d, k + c0 + ":", c1);
    QuietAppend(d, k + c0 + ":" + c1, ValueText(v));
    QuietAppend(d, k + c0 + ":" + c1 + ValueText(v), a);
    QuietAppend(d, k + c0 + ":" + c1 + ValueText(v) + a, tail);
  }

  /** What follows quiet text decides the extent. */
  lemma {:induction false} ExtentAfterFeed(st: Scan, a: string, b: string)
    requires Feed(st, a).Some?
    ensures Extent(st, a + b) == match Extent(Feed(st, a).value, b)
                                 case None => None
                                 case Some(n) => Some(|a| + n)
    decreases |a|
  {
    if a == "" {
      assert a + b == b;
    } else {
      assert (a + b)[0] == a[0] && (a + b)[1..] == a[1..] + b;
      ExtentAfterFeed(Step(st, a[0]).value, a[1..], b);
    }
  }

  lemma ObjectExtent(body: string, suffix: string)
    requires Quiet(1, body)
    ensures Extent(START, ("{" + body) + ("}" + suffix)) == Some(|body| + 2)
  {
    assert ("{" + body)[1..] == body;
    assert Feed(START, "{" + body) == Some(At(1));
    ExtentAfterFeed(START, "{" + body, "}" + suffix);
    assert Extent(At(1), "}" + suffix) == Some(1);
  }

  /** Main result: after any text without an opening brace and before any text at all,
      the scanner returns exactly the text of the JSON object, nested objects, arrays,
      escapes and braces inside strings included. */
  lemma ExtractsExactlyTheObject(prefix: string, gap: string, members: Members, suffix: string)
    requires '{' !in prefix && IsWs(gap) && ValidMembers(members)
    ensures Extracted(prefix + ValueText(Obj(gap, members)) + suffix) == ValueText(Obj(gap, members))
  {
    var body := ObjectBody(gap, members);
    var objText := "{" + body + "}";
    QuietBody(1, gap, members);
    ObjectExtent(body, suffix);
    assert objText + suffix == ("{" + body) + ("}" + suffix);
    CutOut(prefix, objText, suffix);
  }

  lemma CutOut(prefix: string, objText: string, suffix: string)
    requires '{' !in prefix && objText != "" && objText[0] == '{'
    requires Extent(START, objText + suffix) == Some(|objText|)
    ensures Extracted(prefix + objText + suffix) == objText
  {
    var text := prefix + objText + suffix;
    IndexOfChar(text, '{', |prefix|) by { assert text[..|prefix|] == prefix; }
    assert text[|prefix|..] == objText + suffix;
    EndIsExtent(text, |prefix|, START);
    assert text[|prefix|..|prefix| + |objText|] == objText;
  }

  lemma {:induction false} ExtentOfPrefix(st: Scan, s: string)
    requires Extent(st, s).Some?
    ensures Extent(st, s[..Extent(st, s).value]) == Extent(st, s)
    ensures s[Extent(st, s).value - 1] == '}'
    decreases |s|
  {
    var next := Step(st, s[0]);
    if next.Some? {
      var n := Extent(st, s).value;
      ExtentOfPrefix(next.value, s[1..]);
      assert s[..n][1..] == s[1..][..n - 1];
    }
  }

  /** Whatever is returned is a piece of the input from its first opening brace to a
      closing brace, and scanning it again returns it unchanged. */
  lemma ExtractedIsStable(text: string)
    requires Extracted(text) != ""
    ensures var r := Extracted(text);
      && OccursAt(text, r, Index(text, "{"))
      && r[0] == '{' && r[|r| - 1] == '}'
      && Extracted(r) == r
  {
    var start := Index(text, "{");
    var tail := text[start..];
    EndIsExtent(text, start, START);
    ExtentOfPrefix(START, tail);
    var r := Extracted(text);
    var n := Extent(START, tail).value;
    assert r == tail[..n];
    IndexOfChar(r, '{', 0) by { assert text[start..start + 1] == "{"; }
    assert r[0..] == r;
    EndIsExtent(r, 0, START);
  }
}
