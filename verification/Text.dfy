/** Byte strings as the Go `strings` package sees them, restricted to ASCII.

    Trimming, lower-casing and searching come first; then cutting a text into lines, and what a
    reader that trims its lines and skips blank ones sees of it; then numbers in decimal. */
module Text {
  import opened Wrappers

  predicate IsSpace(c: char) {
    c == ' ' || c == '\t' || c == '\n' || c == '\U{0B}' || c == '\U{0C}' || c == '\r'
  }

  predicate Blank(s: string) {
    forall k :: 0 <= k < |s| ==> IsSpace(s[k])
  }

  /** Nothing to trim at either end. */
  predicate Trimmed(s: string) {
    s == "" || (!IsSpace(s[0]) && !IsSpace(s[|s| - 1]))
  }

  predicate SingleLine(s: string) {
    '\n' !in s
  }

  predicate SingleLines(lines: seq<string>) {
    forall k :: 0 <= k < |lines| ==> SingleLine(lines[k])
  }

  /** Where the first non-blank character at or after `i` stands. */
  function FirstInk(s: string, i: nat): (r: nat)
    requires i <= |s|
    ensures i <= r <= |s|
    decreases |s| - i
  {
    if i < |s| && IsSpace(s[i]) then FirstInk(s, i + 1) else i
  }

  /** One past the last non-blank character of s[lo..hi]. */
  function LastInk(s: string, lo: nat, hi: nat): (r: nat)
    requires lo <= hi <= |s|
    ensures lo <= r <= hi
    decreases hi
  {
    if lo < hi && IsSpace(s[hi - 1]) then LastInk(s, lo, hi - 1) else hi
  }

  /** strings.TrimSpace */
  function Trim(s: string): string {
    var i := FirstInk(s, 0);
    s[i..LastInk(s, i, |s|)]
  }

  lemma {:induction false} FirstInkShape(s: string, i: nat)
    requires i <= |s|
    ensures forall k :: i <= k < FirstInk(s, i) ==> IsSpace(s[k])
    ensures FirstInk(s, i) < |s| ==> !IsSpace(s[FirstInk(s, i)])
    decreases |s| - i
  {
    if i < |s| && IsSpace(s[i]) {
      FirstInkShape(s, i + 1);
    }
  }

  lemma {:induction false} LastInkShape(s: string, lo: nat, hi: nat)
    requires lo <= hi <= |s|
    ensures forall k :: LastInk(s, lo, hi) <= k < hi ==> IsSpace(s[k])
    ensures lo < LastInk(s, lo, hi) ==> !IsSpace(s[LastInk(s, lo, hi) - 1])
    decreases hi
  {
    if lo < hi && IsSpace(s[hi - 1]) {
      LastInkShape(s, lo, hi - 1);
    }
  }

  /** The trimmed core and the blank margins around it. */
  lemma TrimParts(s: string) returns (i: nat, j: nat)
    ensures i <= j <= |s| && Trim(s) == s[i..j] && Blank(s[..i]) && Blank(s[j..])
    ensures Trimmed(Trim(s))
  {
    i := FirstInk(s, 0);
    j := LastInk(s, i, |s|);
    FirstInkShape(s, 0);
    LastInkShape(s, i, |s|);
  }

  lemma TrimBounds(s: string, lo: nat, hi: nat)
    requires lo <= hi <= |s|
    requires forall k :: 0 <= k < lo ==> IsSpace(s[k])
    requires forall k :: hi <= k < |s| ==> IsSpace(s[k])
    requires lo == hi || (!IsSpace(s[lo]) && !IsSpace(s[hi - 1]))
    ensures Trim(s) == s[lo..hi]
  {
    var i := FirstInk(s, 0);
    var j := LastInk(s, i, |s|);
    FirstInkShape(s, 0);
    LastInkShape(s, i, |s|);
    if lo == hi {
      assert i == j;
    } else {
      assert i == lo && j == hi;
    }
  }

  /** Trimming is fixed by its shape: blank ends around a trimmed, non-empty core. */
  lemma TrimUnique(a: string, core: string, b: string)
    requires Blank(a) && Blank(b) && Trimmed(core)
    ensures Trim(a + core + b) == core
  {
    var s := a + core + b;
    var lo, hi := |a|, |a| + |core|;
    assert forall k :: 0 <= k < lo ==> s[k] == a[k];
    assert forall k :: hi <= k < |s| ==> s[k] == b[k - hi];
    assert s[lo..hi] == core;
    TrimBounds(s, lo, hi);
  }

  lemma TrimIdle(s: string)
    requires Trimmed(s)
    ensures Trim(s) == s
  {
    TrimUnique("", s, "");
    assert "" + s + "" == s;
  }

  lemma TrimIdempotent(s: string)
    ensures Trim(Trim(s)) == Trim(s)
  {
    var i, j := TrimParts(s);
    TrimIdle(Trim(s));
  }

  lemma TrimShorter(s: string)
    ensures |Trim(s)| <= |s|
  {
  }

  /** Padding with blanks does not change what is left after trimming. */
  lemma TrimPad(a: string, s: string, b: string)
    requires Blank(a) && Blank(b)
    ensures Trim(a + s + b) == Trim(s)
  {
    var i, j := TrimParts(s);
    assert a + s + b == (a + s[..i]) + s[i..j] + (s[j..] + b);
    TrimUnique(a + s[..i], s[i..j], s[j..] + b);
  }

  lemma TrimOfSingleLine(s: string)
    requires SingleLine(s)
    ensures SingleLine(Trim(s))
  {
    var i, j := TrimParts(s);
  }

  function LowerChar(c: char): char {
    if 'A' <= c <= 'Z' then (c as int + 32) as char else c
  }

  /** strings.ToLower on ASCII. */
  function ToLower(s: string): (r: string)
    ensures |r| == |s|
    ensures forall k :: 0 <= k < |s| ==> r[k] == LowerChar(s[k])
  {
    seq(|s|, k requires 0 <= k < |s| => LowerChar(s[k]))
  }

  predicate HasPrefix(s: string, p: string) {
    p <= s
  }

  predicate HasSuffix(s: string, p: string) {
    |p| <= |s| && s[|s| - |p|..] == p
  }

  predicate OccursAt(s: string, p: string, i: int) {
    0 <= i <= |s| - |p| && s[i..i + |p|] == p
  }

  /** strings.Index: the first occurrence, or -1. */
  function Index(s: string, p: string): (r: int)
    ensures -1 <= r <= |s|
    ensures r >= 0 ==> OccursAt(s, p, r)
    ensures forall k :: 0 <= k < (if r < 0 then |s| + 1 else r) ==> !OccursAt(s, p, k)
  {
    IndexFrom(s, p, 0)
  }

  function IndexFrom(s: string, p: string, i: nat): (r: int)
    requires i <= |s|
    ensures -1 <= r <= |s|
    ensures r >= 0 ==> i <= r && OccursAt(s, p, r)
    ensures forall k :: i <= k < (if r < 0 then |s| + 1 else r) ==> !OccursAt(s, p, k)
    decreases |s| - i
  {
    if OccursAt(s, p, i) then i
    else if i == |s| then -1
    else IndexFrom(s, p, i + 1)
  }

  /** strings.LastIndex: the last occurrence, or -1. */
  function LastIndex(s: string, p: string): (r: int)
    ensures -1 <= r <= |s|
    ensures r >= 0 ==> OccursAt(s, p, r)
    ensures forall k :: r < k <= |s| ==> !OccursAt(s, p, k)
  {
    LastIndexFrom(s, p, |s|)
  }

  function LastIndexFrom(s: string, p: string, i: nat): (r: int)
    requires i <= |s|
    ensures -1 <= r <= i
    ensures r >= 0 ==> OccursAt(s, p, r)
    ensures forall k :: r < k <= i ==> !OccursAt(s, p, k)
  {
    if OccursAt(s, p, i) then i else if i == 0 then -1 else LastIndexFrom(s, p, i - 1)
  }

  /** The first occurrence is the only index that occurs with nothing before it. */
  lemma IndexIs(s: string, p: string, i: nat)
    requires OccursAt(s, p, i)
    requires forall k :: 0 <= k < i ==> !OccursAt(s, p, k)
    ensures Index(s, p) == i
  {
  }

  lemma IndexOfChar(s: string, c: char, i: nat)
    requires i < |s| && s[i] == c && c !in s[..i]
    ensures Index(s, [c]) == i
  {
    assert OccursAt(s, [c], i);
    forall k | 0 <= k < i ensures !OccursAt(s, [c], k) {
      assert s[..i][k] == s[k];
    }
  }

  /** Cutting at the first occurrence of a character. */
  lemma CutAtChar(a: string, c: char, b: string)
    requires c !in a
    ensures var s := a + [c] + b; Index(s, [c]) == |a| && s[..|a|] == a && s[|a| + 1..] == b
  {
    var s := a + [c] + b;
    assert s[..|a|] == a;
    IndexOfChar(s, c, |a|);
  }

  /** One blank in front of trimmed text. */
  lemma TrimSpaceBefore(s: string)
    requires Trimmed(s)
    ensures Trim(" " + s) == s
  {
    TrimUnique(" ", s, "");
    assert " " + s + "" == " " + s;
  }

  // ---- lines ----

  /** strings.Split(s, sep) for a one-byte separator: always at least one piece. */
  function Split(s: string, sep: char): (r: seq<string>)
    ensures |r| >= 1
    ensures forall k :: 0 <= k < |r| ==> sep !in r[k]
  {
    var i := Index(s, [sep]);
    if i < 0 then
      assert forall k :: 0 <= k < |s| ==> s[k] != sep by {
        forall k | 0 <= k < |s| ensures s[k] != sep { assert !OccursAt(s, [sep], k); }
      }
      [s]
    else
      assert forall k :: 0 <= k < i ==> s[k] != sep by {
        forall k | 0 <= k < i ensures s[k] != sep { assert !OccursAt(s, [sep], k); }
      }
      [s[..i]] + Split(s[i + 1..], sep)
  }

  /** strings.Join with a one-byte separator. */
  function Join(ls: seq<string>, sep: char): string {
    if |ls| == 0 then ""
    else if |ls| == 1 then ls[0]
    else ls[0] + [sep] + Join(ls[1..], sep)
  }

  lemma SplitPiece(l: string, sep: char, rest: string)
    requires sep !in l
    ensures Split(l + [sep] + rest, sep) == [l] + Split(rest, sep)
  {
    var s := l + [sep] + rest;
    IndexOfChar(s, sep, |l|) by { assert s[..|l|] == l; }
    assert s[..|l|] == l && s[|l| + 1..] == rest;
  }

  lemma SplitWhole(l: string, sep: char)
    requires sep !in l
    ensures Split(l, sep) == [l]
  {
    assert forall k :: OccursAt(l, [sep], k) ==> l[k] == sep;
  }

  /** Cutting undoes joining. */
  lemma {:induction false} SplitJoin(ls: seq<string>, sep: char)
    requires |ls| >= 1 && forall k :: 0 <= k < |ls| ==> sep !in ls[k]
    ensures Split(Join(ls, sep), sep) == ls
  {
    if |ls| == 1 {
      SplitWhole(ls[0], sep);
    } else {
      SplitJoin(ls[1..], sep);
      SplitPiece(ls[0], sep, Join(ls[1..], sep));
    }
  }

  /** Each line followed by a newline, as the builders write them. */
  function Unlines(ls: seq<string>): string {
    if ls == [] then "" else ls[0] + "\n" + Unlines(ls[1..])
  }

  lemma {:induction false} UnlinesAppend(a: seq<string>, b: seq<string>)
    ensures Unlines(a + b) == Unlines(a) + Unlines(b)
  {
    if a == [] {
      assert a + b == b;
    } else {
      assert (a + b)[1..] == a[1..] + b;
      UnlinesAppend(a[1..], b);
    }
  }

  /** A line trimmed, or nothing when it is blank. */
  function CleanLine(l: string): seq<string> {
    var t := Trim(l);
    if t == "" then [] else [t]
  }

  /** Trimmed lines with the blank ones dropped. */
  function Clean(ls: seq<string>): seq<string> {
    if ls == [] then [] else CleanLine(ls[0]) + Clean(ls[1..])
  }

  /** What a line-by-line reader sees of a body once it trims and skips blanks. */
  function CleanLines(body: string): seq<string> {
    Clean(Split(body, '\n'))
  }

  lemma {:induction false} CleanAppend(a: seq<string>, b: seq<string>)
    ensures Clean(a + b) == Clean(a) + Clean(b)
  {
    if a == [] {
      assert a + b == b;
    } else {
      assert (a + b)[1..] == a[1..] + b;
      CleanAppend(a[1..], b);
    }
  }

  /** Lines that are already trimmed, non-blank and single come back as they are. */
  lemma {:induction false} CleanIdle(ls: seq<string>)
    requires forall k :: 0 <= k < |ls| ==> Trimmed(ls[k]) && ls[k] != ""
    ensures Clean(ls) == ls
  {
    if ls != [] {
      TrimIdle(ls[0]);
      CleanIdle(ls[1..]);
      assert ls == [ls[0]] + ls[1..];
    }
  }

  /** Every cleaned line is trimmed, non-blank and on one line. */
  lemma {:induction false} CleanShape(ls: seq<string>)
    requires forall k :: 0 <= k < |ls| ==> SingleLine(ls[k])
    ensures forall k :: 0 <= k < |Clean(ls)| ==>
      Trimmed(Clean(ls)[k]) && Clean(ls)[k] != "" && SingleLine(Clean(ls)[k])
  {
    if ls != [] {
      CleanShape(ls[1..]);
      TrimOfSingleLine(ls[0]);
      var i, j := TrimParts(ls[0]);
    }
  }

  lemma CleanSingle(l: string)
    ensures Clean([l]) == CleanLine(l)
  {
    var rest: seq<string> := [l][1..];
    assert rest == [];
    assert Clean(rest) == [];
    assert CleanLine(l) + [] == CleanLine(l);
  }

  /** A text is either one line or a line, a newline and the rest. */
  lemma FirstLine(s: string) returns (found: bool, l: string, rest: string)
    ensures SingleLine(l)
    ensures !found ==> s == l
    ensures found ==> s == l + "\n" + rest && |rest| < |s|
  {
    var i := Index(s, "\n");
    found := i >= 0;
    l := if found then s[..i] else s;
    rest := if found then s[i + 1..] else "";
    forall k | 0 <= k < |l| ensures l[k] != '\n' {
      assert !OccursAt(s, "\n", k);
    }
    if found {
      assert s[i..i + 1] == "\n";
    }
  }

  lemma CleanLinesOfLine(l: string)
    requires SingleLine(l)
    ensures CleanLines(l) == CleanLine(l)
  {
    SplitWhole(l, '\n');
    CleanSingle(l);
  }

  lemma CleanLinesPiece(l: string, rest: string)
    requires SingleLine(l)
    ensures CleanLines(l + "\n" + rest) == CleanLine(l) + CleanLines(rest)
  {
    SplitPiece(l, '\n', rest);
    CleanAppend([l], Split(rest, '\n'));
    CleanSingle(l);
  }

  /** Reading back written lines: only trimming and blank lines are lost. */
  lemma {:induction false} CleanLinesOfUnlines(ls: seq<string>)
    requires forall k :: 0 <= k < |ls| ==> SingleLine(ls[k])
    ensures CleanLines(Unlines(ls)) == Clean(ls)
  {
    if ls == [] {
      SplitWhole("", '\n');
    } else {
      CleanLinesOfUnlines(ls[1..]);
      CleanLinesPiece(ls[0], Unlines(ls[1..]));
      CleanAppend([ls[0]], ls[1..]);
      assert [ls[0]] + ls[1..] == ls;
    }
  }

  /** A leading blank character is invisible to the reader. */
  lemma CleanLinesSpaceBefore(c: char, s: string)
    requires IsSpace(c)
    ensures CleanLines([c] + s) == CleanLines(s)
  {
    if c == '\n' {
      CleanLinesPiece("", s);
      assert "" + "\n" + s == [c] + s;
    } else {
      var found, l, rest := FirstLine(s);
      CleanLinePad([c], l, "");
      assert [c] + l + "" == [c] + l;
      if found {
        assert [c] + s == ([c] + l) + "\n" + rest;
        CleanLinesPiece(l, rest);
        CleanLinesPiece([c] + l, rest);
      } else {
        CleanLinesOfLine(l);
        CleanLinesOfLine([c] + l);
      }
    }
  }

  lemma CleanLinePad(a: string, l: string, b: string)
    requires Blank(a) && Blank(b)
    ensures CleanLine(a + l + b) == CleanLine(l)
  {
    TrimPad(a, l, b);
  }

  /** A trailing blank character is invisible to the reader. */
  lemma {:induction false} CleanLinesSpaceAfter(s: string, c: char)
    requires IsSpace(c)
    ensures CleanLines(s + [c]) == CleanLines(s)
    decreases |s|
  {
    var found, l, rest := FirstLine(s);
    if found {
      CleanLinesSpaceAfter(rest, c);
      PieceSpaceAfter(l, rest, c);
    } else {
      LineSpaceAfter(l, c);
    }
  }

  lemma ConcatAssoc(a: string, b: string, c: string)
    ensures (a + b) + c == a + (b + c)
  {
  }

  lemma PieceSpaceAfter(l: string, rest: string, c: char)
    requires SingleLine(l)
    requires CleanLines(rest + [c]) == CleanLines(rest)
    ensures CleanLines((l + "\n" + rest) + [c]) == CleanLines(l + "\n" + rest)
  {
    CleanLinesPiece(l, rest);
    CleanLinesPiece(l, rest + [c]);
    ConcatAssoc(l + "\n", rest, [c]);
  }

  lemma LineSpaceAfter(l: string, c: char)
    requires SingleLine(l) && IsSpace(c)
    ensures CleanLines(l + [c]) == CleanLines(l)
  {
    CleanLinesOfLine(l);
    if c == '\n' {
      CleanLinesPiece(l, "");
      assert l + "\n" + "" == l + [c];
      CleanLinesOfLine("");
    } else {
      CleanLinesOfLine(l + [c]);
      CleanLinePad("", l, [c]);
      assert "" + l + [c] == l + [c];
    }
  }

  lemma {:induction false} CleanLinesPad(a: string, s: string, b: string)
    requires Blank(a) && Blank(b)
    ensures CleanLines(a + s + b) == CleanLines(s)
    decreases |a| + |b|
  {
    if a != "" {
      assert a + s + b == [a[0]] + (a[1..] + s + b);
      CleanLinesSpaceBefore(a[0], a[1..] + s + b);
      CleanLinesPad(a[1..], s, b);
    } else if b != "" {
      var b' := b[..|b| - 1];
      assert a + s + b == (a + s + b') + [b[|b| - 1]];
      CleanLinesSpaceAfter(a + s + b', b[|b| - 1]);
      CleanLinesPad(a, s, b');
    } else {
      assert a + s + b == s;
    }
  }

  /** Trimming a whole body and closing it with one newline loses nothing a reader sees. */
  lemma CleanLinesOfTrimmed(body: string)
    ensures CleanLines(Trim(body) + "\n") == CleanLines(body)
    ensures CleanLines(Trim(body)) == CleanLines(body)
  {
    var i, j := TrimParts(body);
    var core := Trim(body);
    assert body == body[..i] + core + body[j..];
    CleanLinesPad(body[..i], core, body[j..]);
    CleanLinesSpaceAfter(core, '\n');
  }

  /** Text behind a newline adds its own lines. */
  lemma {:induction false} CleanLinesBehind(a: string, b: string)
    ensures CleanLines(a + "\n" + b) == CleanLines(a) + CleanLines(b)
    decreases |a|
  {
    var found, l, rest := FirstLine(a);
    if found {
      CleanLinesBehind(rest, b);
      CleanLinesPiece(l, rest);
      CleanLinesPiece(l, rest + "\n" + b);
      BehindAssoc(l, rest, b);
      ConcatThree(CleanLine(l), CleanLines(rest), CleanLines(b));
    } else {
      CleanLinesOfLine(l);
      CleanLinesPiece(l, b);
    }
  }

  lemma BehindAssoc(l: string, rest: string, b: string)
    ensures l + "\n" + rest + "\n" + b == l + "\n" + (rest + "\n" + b)
  {
  }

  lemma ConcatThree<T>(a: seq<T>, b: seq<T>, c: seq<T>)
    ensures a + (b + c) == a + b + c
  {
  }

  // ---- decimal numerals ----

  function DigitChar(d: nat): char
    requires d < 10
  {
    ('0' as int + d) as char
  }

  predicate IsDigit(c: char) {
    '0' <= c <= '9'
  }

  predicate AllDigits(s: string) {
    forall k :: 0 <= k < |s| ==> IsDigit(s[k])
  }

  /** strconv.Itoa on a non-negative number. */
  function Itoa(n: nat): (r: string)
    ensures r != "" && AllDigits(r)
  {
    if n < 10 then [DigitChar(n)] else Itoa(n / 10) + [DigitChar(n % 10)]
  }

  function DigitsValue(s: string): nat
    requires AllDigits(s)
  {
    if s == "" then 0 else 10 * DigitsValue(s[..|s| - 1]) + (s[|s| - 1] as int - '0' as int)
  }

  /** strconv.Atoi without the overflow error: an optional sign, then digits. */
  function Atoi(s: string): Option<int> {
    var digits := if s != "" && (s[0] == '-' || s[0] == '+') then s[1..] else s;
    if digits == "" || !AllDigits(digits) then None
    else
      var v: int := DigitsValue(digits);
      Some(if s[0] == '-' then -v else v)
  }

  lemma {:induction false} DigitsOfItoa(n: nat)
    ensures DigitsValue(Itoa(n)) == n
  {
    if n >= 10 {
      DigitsOfItoa(n / 10);
      assert Itoa(n)[..|Itoa(n)| - 1] == Itoa(n / 10);
    }
  }

  /** Reading a printed number gives the number back. */
  lemma AtoiItoa(n: nat)
    ensures Atoi(Itoa(n)) == Some(n)
  {
    DigitsOfItoa(n);
    assert IsDigit(Itoa(n)[0]);
  }

  lemma ItoaInjective(m: nat, n: nat)
    requires Itoa(m) == Itoa(n)
    ensures m == n
  {
    DigitsOfItoa(m);
    DigitsOfItoa(n);
  }

  /** Decimal text is trimmed and single-line, and holds none of the document's punctuation. */
  lemma ItoaPlain(n: nat)
    ensures Trimmed(Itoa(n)) && SingleLine(Itoa(n))
    ensures '/' !in Itoa(n) && '.' !in Itoa(n)
  {
    assert IsDigit(Itoa(n)[0]) && IsDigit(Itoa(n)[|Itoa(n)| - 1]);
  }
}
