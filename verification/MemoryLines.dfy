/** Writing memory files line by line, and what reading sees of the written lines
    (memory/merge.go:106-150, 1077-1256).

    A document is a sequence of blocks: a header, the block's lines, and a blank line. */
module MemoryLines {
  import opened Text
  import opened MemorySections

  function Header(name: string): string {
    HEADER + name
  }

  /** Appending lines to the builder. */
  lemma WriteMore(b: string, a: seq<string>, more: seq<string>)
    ensures b + Unlines(a) + Unlines(more) == b + Unlines(a + more)
  {
    UnlinesAppend(a, more);
    ConcatAssoc(b, Unlines(a), Unlines(more));
  }

  lemma LineText(l: string)
    ensures Unlines([l]) == l + "\n"
  {
    assert [l][1..] == [];
    assert Unlines([l]) == l + "\n" + "";
  }

  lemma AppendBlock(b: string, h: seq<string>, lines: seq<string>, more: seq<string>)
    ensures b + Unlines(h + lines) + Unlines(more) == b + Unlines(h + (lines + more))
    ensures more == [] ==> b + Unlines(h + (lines + more)) == b + Unlines(h + lines)
  {
    assert h + (lines + more) == (h + lines) + more;
    WriteMore(b, h + lines, more);
    if more == [] {
      assert lines + more == lines;
    }
  }

  lemma CloseBlock(b: string, lines: seq<string>)
    ensures b + Unlines(lines) + "\n" == b + Unlines(lines + [""])
  {
    LineText("");
    assert "" + "\n" == "\n";
    WriteMore(b, lines, [""]);
  }

  /** Written lines, and what reading sees of them. */
  ghost predicate Reads(lines: seq<string>, read: seq<string>) {
    && Clean(lines) == read && Plain(read)
    && forall k :: 0 <= k < |lines| ==> SingleLine(lines[k])
  }

  lemma ReadsConcat(a: seq<string>, a': seq<string>, b: seq<string>, b': seq<string>)
    requires Reads(a, a') && Reads(b, b')
    ensures Reads(a + b, a' + b')
  {
    CleanAppend(a, b);
  }

  lemma ReadsOne(l: string)
    requires CleanText(l) && !IsHeader(l)
    ensures Reads([l], [l])
  {
    CleanSingle(l);
    TrimIdle(l);
  }

  /** Written lines, and what is left of them once they are trimmed and blank ones skipped. */
  ghost predicate Cleans(lines: seq<string>, read: seq<string>) {
    Clean(lines) == read && forall k :: 0 <= k < |lines| ==> SingleLine(lines[k])
  }

  lemma CleansConcat(a: seq<string>, a': seq<string>, b: seq<string>, b': seq<string>)
    requires Cleans(a, a') && Cleans(b, b')
    ensures Cleans(a + b, a' + b')
  {
    CleanAppend(a, b);
  }

  lemma CleansOne(l: string)
    requires CleanText(l)
    ensures Cleans([l], [l])
  {
    CleanSingle(l);
    TrimIdle(l);
  }

  lemma CleansNothing()
    ensures Cleans([""], [])
  {
    CleanSingle("");
    TrimIdle("");
  }

  lemma HeaderIs(name: string)
    requires CleanText(name)
    ensures IsHeader(Header(name)) && HeaderName(Header(name)) == name && CleanText(Header(name))
  {
    var h := Header(name);
    assert h[..|HEADER|] == HEADER && h[|HEADER|..] == name;
    TrimIdle(name);
    assert h[0] == '#' && h[|h| - 1] == name[|name| - 1];
    assert SingleLine(HEADER);
  }

  lemma AssocBlock3<T>(a: seq<T>, x: T, b: seq<T>)
    ensures a + ([x] + b + []) == a + [x] + b
  {
  }

  /** One written block: header, lines, blank line. */
  lemma BlockRead(written: seq<string>, seen: seq<string>, name: string, lines: seq<string>, read: seq<string>)
    requires Cleans(written, seen) && CleanText(name) && Cleans(lines, read)
    ensures Cleans(written + ([Header(name)] + lines + [""]), seen + [Header(name)] + read)
  {
    var h := Header(name);
    HeaderIs(name);
    CleansOne(h);
    CleansNothing();
    CleansConcat([h], [h], lines, read);
    CleansConcat([h] + lines, [h] + read, [""], []);
    CleansConcat(written, seen, [h] + lines + [""], [h] + read + []);
    AssocBlock3(seen, h, read);
  }

  lemma SplitLast<T>(s: seq<T>)
    requires s != []
    ensures s == s[..|s| - 1] + [s[|s| - 1]]
  {
  }

  // ---- texts that end a line ----

  /** A text that ends a line, or nothing at all. */
  predicate Whole(s: string) {
    s == "" || s[|s| - 1] == '\n'
  }

  lemma WholeBehind(a: string, b: string)
    requires Whole(a)
    ensures CleanLines(a + b) == CleanLines(a) + CleanLines(b)
  {
    if a == "" {
      NoLines();
      assert a + b == b && [] + CleanLines(b) == CleanLines(b);
    } else {
      var a' := a[..|a| - 1];
      CutEnd(a, b);
      CleanLinesSpaceAfter(a', '\n');
      CleanLinesBehind(a', b);
    }
  }

  lemma NoLines()
    ensures CleanLines("") == []
  {
    CleanLinesOfLine("");
    TrimIdle("");
  }

  lemma CutEnd(a: string, b: string)
    requires Whole(a) && a != ""
    ensures a == a[..|a| - 1] + ['\n'] && a + b == a[..|a| - 1] + "\n" + b
  {
  }

  lemma {:induction false} UnlinesIsWhole(lines: seq<string>)
    ensures Whole(Unlines(lines))
  {
    if lines != [] {
      UnlinesIsWhole(lines[1..]);
    }
  }

  /** Written lines behind written lines, whatever they hold. */
  lemma LinesBehind(a: seq<string>, b: seq<string>)
    ensures CleanLines(Unlines(a + b)) == CleanLines(Unlines(a)) + CleanLines(Unlines(b))
  {
    UnlinesAppend(a, b);
    UnlinesIsWhole(a);
    WholeBehind(Unlines(a), Unlines(b));
  }

  /** One more written block, whatever its lines hold. */
  lemma BlockBehind(w: seq<string>, name: string, lines: seq<string>)
    requires CleanText(name)
    ensures CleanLines(Unlines(w + ([Header(name)] + lines + [""])))
         == CleanLines(Unlines(w)) + [Header(name)] + CleanLines(Unlines(lines))
  {
    var h, read := Header(name), CleanLines(Unlines(lines));
    HeaderIs(name);
    CleansOne(h);
    CleansNothing();
    CleanLinesOfUnlines([h]);
    CleanLinesOfUnlines([""]);
    LinesBehind([h], lines);
    LinesBehind([h] + lines, [""]);
    LinesBehind(w, [h] + lines + [""]);
    AssocBlock3(CleanLines(Unlines(w)), h, read);
  }

  // ---- documents as blocks ----

  /** A section by name with its lines as reading sees them. */
  datatype Block = Block(name: string, lines: seq<string>)

  function Seen(blocks: seq<Block>): seq<string> {
    if blocks == [] then []
    else
      var n := |blocks| - 1;
      Seen(blocks[..n]) + [Header(blocks[n].name)] + blocks[n].lines
  }

  /** The lines of all blocks of a name. */
  function Gather(blocks: seq<Block>, name: string): seq<string> {
    if blocks == [] then []
    else
      var n := |blocks| - 1;
      Gather(blocks[..n], name) + (if blocks[n].name == name then blocks[n].lines else [])
  }

  predicate GoodBlocks(blocks: seq<Block>) {
    forall k :: 0 <= k < |blocks| ==> CleanText(blocks[k].name) && Plain(blocks[k].lines)
  }

  lemma {:induction false} SeenSection(pre: seq<string>, blocks: seq<Block>, name: string)
    requires Plain(pre) && GoodBlocks(blocks) && name != ""
    ensures Section(pre + Seen(blocks), name) == Gather(blocks, name)
  {
    if blocks == [] {
      assert pre + [] == pre;
      PreambleSection(pre, name);
    } else {
      var n := |blocks| - 1;
      var b := blocks[n];
      SeenSection(pre, blocks[..n], name);
      HeaderIs(b.name);
      AssocBlock(pre, Seen(blocks[..n]), Header(b.name), b.lines);
      BlockSection(pre + Seen(blocks[..n]), Header(b.name), b.lines, name);
    }
  }

  lemma AssocBlock<T>(a: seq<T>, b: seq<T>, x: T, c: seq<T>)
    ensures a + (b + [x] + c) == a + b + [x] + c
  {
  }

  predicate DistinctNames(blocks: seq<Block>) {
    forall i, j :: 0 <= i < j < |blocks| ==> blocks[i].name != blocks[j].name
  }

  lemma {:induction false} GatherNone(blocks: seq<Block>, name: string)
    requires forall k :: 0 <= k < |blocks| ==> blocks[k].name != name
    ensures Gather(blocks, name) == []
  {
    if blocks != [] {
      GatherNone(blocks[..|blocks| - 1], name);
    }
  }

  lemma {:induction false} GatherOne(blocks: seq<Block>, i: nat)
    requires DistinctNames(blocks) && i < |blocks|
    ensures Gather(blocks, blocks[i].name) == blocks[i].lines
  {
    var n := |blocks| - 1;
    if i == n {
      GatherNone(blocks[..n], blocks[n].name);
      assert [] + blocks[n].lines == blocks[n].lines;
    } else {
      GatherOne(blocks[..n], i);
      assert blocks[i].lines + [] == blocks[i].lines;
    }
  }
}
