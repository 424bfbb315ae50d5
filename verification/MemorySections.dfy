/** The Markdown skeleton of memory files: sections of trimmed lines, to-do lines, and the
    key-value lines of both document kinds (memory/merge.go:128-377). */
module MemorySections {
  import opened Text

  datatype KVItem = KVItem(title: string, value: string)

  datatype TaskItem = TaskItem(text: string, done: bool)

  datatype LinkItem = LinkItem(text: string, target: string)

  /** What reading a section hands on: a trimmed, non-blank line. */
  predicate CleanText(l: string) {
    Trimmed(l) && l != "" && SingleLine(l)
  }

  // ---- sections ----

  const HEADER := "## "

  predicate IsHeader(l: string) {
    HasPrefix(l, HEADER)
  }

  function HeaderName(l: string): string
    requires IsHeader(l)
  {
    Trim(l[|HEADER|..])
  }

  /** The section the line after these belongs to; "" before the first header. */
  function Current(lines: seq<string>): string {
    if lines == [] then ""
    else
      var l := lines[|lines| - 1];
      if IsHeader(l) then HeaderName(l) else Current(lines[..|lines| - 1])
  }

  /** The lines of all sections of a name. */
  function Section(lines: seq<string>, name: string): seq<string> {
    if lines == [] then []
    else
      var n := |lines| - 1;
      if !IsHeader(lines[n]) && name != "" && Current(lines[..n]) == name
      then Section(lines[..n], name) + [lines[n]]
      else Section(lines[..n], name)
  }

  /** One more line. */
  lemma SectionNext(lines: seq<string>, l: string, section: string)
    requires section != ""
    ensures Section(lines + [l], section)
         == Section(lines, section) + (if !IsHeader(l) && Current(lines) == section then [l] else [])
    ensures Current(lines + [l]) == if IsHeader(l) then HeaderName(l) else Current(lines)
  {
    assert (lines + [l])[..|lines|] == lines;
    assert Section(lines, section) + [] == Section(lines, section);
  }

  /** No header line among them. */
  predicate Plain(lines: seq<string>) {
    forall k :: 0 <= k < |lines| ==> !IsHeader(lines[k])
  }

  lemma {:induction false} BlockSection(before: seq<string>, header: string, lines: seq<string>, name: string)
    requires IsHeader(header) && Plain(lines) && name != ""
    ensures Section(before + [header] + lines, name)
         == Section(before, name) + (if HeaderName(header) == name then lines else [])
    ensures Current(before + [header] + lines) == HeaderName(header)
  {
    var all := before + [header] + lines;
    if lines == [] {
      assert all == before + [header];
      assert all[..|all| - 1] == before;
      assert Section(before, name) + [] == Section(before, name);
    } else {
      var n := |lines| - 1;
      assert all[..|all| - 1] == before + [header] + lines[..n];
      BlockSection(before, header, lines[..n], name);
      assert lines == lines[..n] + [lines[n]];
    }
  }

  lemma {:induction false} PreambleSection(lines: seq<string>, name: string)
    requires Plain(lines) && name != ""
    ensures Section(lines, name) == [] && Current(lines) == ""
  {
    if lines != [] {
      PreambleSection(lines[..|lines| - 1], name);
    }
  }

  /** Lines of a section are lines of the document, and no headers. */
  lemma {:induction false} SectionLines(lines: seq<string>, name: string)
    ensures Plain(Section(lines, name))
    ensures forall l :: l in Section(lines, name) ==> l in lines
  {
    if lines != [] {
      SectionLines(lines[..|lines| - 1], name);
    }
  }

  lemma CleanLinesAreClean(body: string)
    ensures forall l :: l in CleanLines(body) ==> CleanText(l)
  {
    CleanShape(Split(body, '\n'));
  }

  lemma SectionIsClean(body: string, name: string)
    ensures Plain(Section(CleanLines(body), name))
    ensures forall l :: l in Section(CleanLines(body), name) ==> CleanText(l)
  {
    SectionLines(CleanLines(body), name);
    CleanLinesAreClean(body);
  }

  /** Trimming the lines of a section again changes nothing. */
  lemma SectionIsTrimmed(body: string, name: string)
    ensures Clean(Section(CleanLines(body), name)) == Section(CleanLines(body), name)
  {
    var lines := Section(CleanLines(body), name);
    SectionIsClean(body, name);
    assert forall k :: 0 <= k < |lines| ==> CleanText(lines[k]) by {
      forall k | 0 <= k < |lines| ensures CleanText(lines[k]) {
        assert lines[k] in lines;
      }
    }
    CleanIdle(lines);
  }

  lemma BlankIff(s: string)
    ensures Trim(s) == "" <==> Blank(s)
  {
    var i, j := TrimParts(s);
    if Blank(s) {
      TrimUnique(s, "", "");
      assert s + "" + "" == s;
    }
    assert i == j ==> s == s[..i] + s[j..];
  }

  lemma {:induction false} CleanPrefix(ls: seq<string>, i: nat)
    requires i < |ls|
    ensures Clean(ls[..i + 1]) == Clean(ls[..i]) + CleanLine(ls[i])
  {
    assert ls[..i + 1] == ls[..i] + [ls[i]];
    CleanAppend(ls[..i], [ls[i]]);
    CleanSingle(ls[i]);
  }

  /** What one more line does to the sections. */
  lemma NextLine(lines: seq<string>, i: nat, name: string)
    requires i < |lines|
    ensures var before, after, trim := Clean(lines[..i]), Clean(lines[..i + 1]), Trim(lines[i]);
      && Current(after) == (if IsHeader(trim) then HeaderName(trim) else Current(before))
      && Section(after, name)
         == Section(before, name)
            + (if trim != "" && !IsHeader(trim) && name != "" && Current(before) == name then [trim] else [])
  {
    var before, trim := Clean(lines[..i]), Trim(lines[i]);
    CleanPrefix(lines, i);
    assert Section(before, name) + [] == Section(before, name);
    if trim == "" {
      assert before + [] == before;
    } else {
      assert (before + [trim])[..|before|] == before;
    }
  }

  function Lookup(sections: map<string, seq<string>>, name: string): seq<string> {
    if name in sections then sections[name] else []
  }

  /** The map holds the sections of the lines read so far. */
  ghost predicate HoldsSections(sections: map<string, seq<string>>, lines: seq<string>) {
    forall name :: name != "" ==> Lookup(sections, name) == Section(lines, name)
  }

  method SplitSections(body: string) returns (sections: map<string, seq<string>>)
    ensures HoldsSections(sections, CleanLines(body))
  {
    sections := map[];
    var current, lines := "", Split(body, '\n');
    for i := 0 to |lines|
      invariant current == Current(Clean(lines[..i])) && HoldsSections(sections, Clean(lines[..i]))
    {
      ghost var before := sections;
      var trim := Trim(lines[i]);
      if HasPrefix(trim, HEADER) {
        current := Trim(trim[|HEADER|..]);
        if current !in sections {
          sections := sections[current := []];
        }
      } else if current != "" && trim != "" {
        sections := sections[current := Lookup(sections, current) + [trim]];
      }
      NextLine(lines, i, "");
      forall name | name != "" ensures Lookup(sections, name) == Section(Clean(lines[..i + 1]), name) {
        NextLine(lines, i, name);
        assert Lookup(before, name) == Section(Clean(lines[..i]), name);
      }
    }
    assert lines[..|lines|] == lines;
  }

  method ExtractTodoSections(body: string) returns (tasks: seq<string>, followUps: seq<string>)
    ensures tasks == Section(CleanLines(body), TASKS) && followUps == Section(CleanLines(body), FOLLOW_UPS)
  {
    tasks, followUps := [], [];
    var current, lines := "", Split(body, '\n');
    for i := 0 to |lines|
      invariant current == Current(Clean(lines[..i]))
      invariant tasks == Section(Clean(lines[..i]), TASKS)
      invariant followUps == Section(Clean(lines[..i]), FOLLOW_UPS)
    {
      var trim := Trim(lines[i]);
      NextLine(lines, i, TASKS);
      NextLine(lines, i, FOLLOW_UPS);
      if HasPrefix(trim, HEADER) {
        current := Trim(trim[|HEADER|..]);
        continue;
      }
      if current == "" || trim == "" {
        continue;
      }
      if current == TASKS {
        tasks := tasks + [trim];
      } else if current == FOLLOW_UPS {
        followUps := followUps + [trim];
      }
    }
    assert lines[..|lines|] == lines;
  }

  const SESSION_SUMMARY := "Session Summary"
  const TEMPORARY_FACTS := "Temporary Facts"
  const TASKS := "Tasks"
  const FOLLOW_UPS := "Follow Ups"
  const RELATED_LINKS := "Related Links"
  const LONG_GOALS := "Long-Term Goals / Projects"
  const LONG_FACTS := "Key Facts"
}
