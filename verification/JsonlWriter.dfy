/** The rotating JSONL writer (internal/fsstore/jsonl.go:30-195, options.go:34-49). */
module JsonlWriter {
  import opened Text
  import Sorting

  type Disk = map<string, string>

  datatype Options = Options(rotateMaxBytes: int, flushEachWrite: bool, syncEachWrite: bool)

  const DEFAULT_ROTATE_MAX_BYTES: nat := 100 * 1024 * 1024

  function Normalized(o: Options): (r: Options)
    ensures r.rotateMaxBytes > 0 && (r.flushEachWrite || r.syncEachWrite)
  {
    Options(if o.rotateMaxBytes <= 0 then DEFAULT_ROTATE_MAX_BYTES else o.rotateMaxBytes,
            if !o.flushEachWrite && !o.syncEachWrite then true else o.flushEachWrite, o.syncEachWrite)
  }

  // ---- the log as a list of files ----

  /** One file: what it held before this writer, then the records appended to it. */
  datatype Piece = Piece(head: string, records: seq<string>)

  function Flatten(records: seq<string>): string {
    if records == [] then "" else Flatten(records[..|records| - 1]) + records[|records| - 1]
  }

  function TextOf(p: Piece): string {
    p.head + Flatten(p.records)
  }

  /** Rotated files in rotation order, then the current one. */
  datatype Log = Log(rotated: seq<Piece>, current: Piece)

  function AppendTo(p: Piece, record: string): Piece {
    p.(records := p.records + [record])
  }

  function Append(l: Log, record: string, max: nat): Log {
    if |TextOf(l.current)| + |record| <= max then l.(current := AppendTo(l.current, record))
    else Log(l.rotated + [l.current], Piece("", [record]))
  }

  function AppendAll(l: Log, records: seq<string>, max: nat): Log {
    if records == [] then l
    else Append(AppendAll(l, records[..|records| - 1], max), records[|records| - 1], max)
  }

  function Start(head: string): Log {
    Log([], Piece(head, []))
  }

  function Pieces(l: Log): seq<Piece> {
    l.rotated + [l.current]
  }

  function RecordsOf(ps: seq<Piece>): seq<string> {
    if ps == [] then [] else RecordsOf(ps[..|ps| - 1]) + ps[|ps| - 1].records
  }

  function TextOfAll(ps: seq<Piece>): string {
    if ps == [] then "" else TextOfAll(ps[..|ps| - 1]) + TextOf(ps[|ps| - 1])
  }

  /** Within the limit, or a single record over it, or the file the writer found, left alone. */
  predicate Fits(p: Piece, max: nat) {
    || |TextOf(p)| <= max
    || (p.head == "" && |p.records| == 1)
    || p.records == []
  }

  /** A file was left only for a record that did not fit behind it. */
  predicate LeftFor(p: Piece, next: Piece, max: nat) {
    next.head == "" && next.records != [] && |TextOf(p)| + |next.records[0]| > max
  }

  ghost predicate Segmented(l: Log, max: nat) {
    var ps := Pieces(l);
    && (forall i :: 0 <= i < |ps| ==> Fits(ps[i], max))
    && (forall i :: 0 <= i < |ps| - 1 ==> LeftFor(ps[i], ps[i + 1], max))
  }

  lemma FlattenAppend(records: seq<string>, r: string)
    ensures Flatten(records + [r]) == Flatten(records) + r
  {
    assert (records + [r])[..|records|] == records;
  }

  lemma TextAppend(p: Piece, r: string)
    ensures TextOf(AppendTo(p, r)) == TextOf(p) + r
  {
    FlattenAppend(p.records, r);
    ConcatAssoc(p.head, Flatten(p.records), r);
  }

  lemma FlattenOne(r: string)
    ensures Flatten([r]) == r
  {
    assert [r][..0] == [];
    assert "" + r == r;
  }

  lemma PiecesLast(ps: seq<Piece>, p: Piece)
    ensures RecordsOf(ps + [p]) == RecordsOf(ps) + p.records
    ensures TextOfAll(ps + [p]) == TextOfAll(ps) + TextOf(p)
  {
    assert (ps + [p])[..|ps|] == ps;
  }

  lemma AppendKeepsAll(l: Log, r: string, max: nat)
    ensures RecordsOf(Pieces(Append(l, r, max))) == RecordsOf(Pieces(l)) + [r]
    ensures TextOfAll(Pieces(Append(l, r, max))) == TextOfAll(Pieces(l)) + r
  {
    PiecesLast(l.rotated, l.current);
    if |TextOf(l.current)| + |r| <= max {
      var p := AppendTo(l.current, r);
      PiecesLast(l.rotated, p);
      TextAppend(l.current, r);
      assert RecordsOf(l.rotated) + (l.current.records + [r]) == RecordsOf(l.rotated) + l.current.records + [r];
      ConcatAssoc(TextOfAll(l.rotated), TextOf(l.current), r);
    } else {
      PiecesLast(Pieces(l), Piece("", [r]));
      FlattenOne(r);
      assert "" + r == r;
    }
  }

  lemma AppendKeepsSegments(l: Log, r: string, max: nat)
    requires Segmented(l, max)
    ensures Segmented(Append(l, r, max), max)
  {
    var before, after := Pieces(l), Pieces(Append(l, r, max));
    var n := |before| - 1;
    if |TextOf(l.current)| + |r| <= max {
      TextAppend(l.current, r);
      forall i | 0 <= i < n ensures LeftFor(after[i], after[i + 1], max) {
        assert LeftFor(before[i], before[i + 1], max);
        assert before[i] == after[i];
      }
      assert forall i :: 0 <= i < n ==> Fits(after[i], max) by {
        assert forall i :: 0 <= i < n ==> after[i] == before[i];
      }
    } else {
      assert after == before + [Piece("", [r])];
      forall i | 0 <= i < n ensures LeftFor(after[i], after[i + 1], max) {
        assert LeftFor(before[i], before[i + 1], max);
      }
    }
  }

  /** The files hold what the writer found, then the records, cut only where they must be. */
  ghost predicate Faithful(l: Log, head: string, records: seq<string>, max: nat) {
    && RecordsOf(Pieces(l)) == records
    && TextOfAll(Pieces(l)) == head + Flatten(records)
    && Pieces(l)[0].head == head
    && Segmented(l, max)
  }

  lemma StartIsFaithful(head: string, max: nat)
    ensures Faithful(Start(head), head, [], max)
  {
    var p := Piece(head, []);
    PiecesLast([], p);
    assert Pieces(Start(head)) == [] + [p];
    assert "" + (head + "") == head + "";
  }

  lemma AppendIsFaithful(l: Log, head: string, records: seq<string>, r: string, max: nat)
    requires Faithful(l, head, records, max)
    ensures Faithful(Append(l, r, max), head, records + [r], max)
  {
    AppendKeepsAll(l, r, max);
    AppendKeepsSegments(l, r, max);
    FlattenAppend(records, r);
    ConcatAssoc(head, Flatten(records), r);
  }

  /** Main result: the rotated files in rotation order followed by the current file hold exactly
      what the writer found and then the appended records, in order; every file is within the
      limit, or a single record over it, or the untouched first file; and no file was left while
      the next record still fitted. */
  lemma {:induction false} NothingIsLost(head: string, records: seq<string>, max: nat)
    ensures Faithful(AppendAll(Start(head), records, max), head, records, max)
  {
    if records == [] {
      StartIsFaithful(head, max);
    } else {
      var n := |records| - 1;
      NothingIsLost(head, records[..n], max);
      AppendIsFaithful(AppendAll(Start(head), records[..n], max), head, records[..n], records[n], max);
      assert records[..n] + [records[n]] == records;
    }
  }

  /** With a first file within the limit, the only files over it hold one record. */
  lemma {:induction false} OnlySingleRecordsExceed(head: string, records: seq<string>, max: nat, i: nat)
    requires |head| <= max
    requires i < |Pieces(AppendAll(Start(head), records, max))|
    ensures var p := Pieces(AppendAll(Start(head), records, max))[i];
      |TextOf(p)| <= max || (p.head == "" && |p.records| == 1)
  {
    NothingIsLost(head, records, max);
    var ps := Pieces(AppendAll(Start(head), records, max));
    assert Fits(ps[i], max);
    if i > 0 {
      assert LeftFor(ps[i - 1], ps[i], max);
    }
  }

  // ---- names ----

  function Candidate(base: string, i: nat): string {
    if i == 0 then base else base + "." + Itoa(i)
  }

  lemma CandidatesDiffer(base: string, i: nat, j: nat)
    requires Candidate(base, i) == Candidate(base, j)
    ensures i == j
  {
    if i != 0 && j != 0 {
      assert (base + "." + Itoa(i))[|base| + 1..] == Itoa(i);
      assert (base + "." + Itoa(j))[|base| + 1..] == Itoa(j);
      ItoaInjective(i, j);
    }
  }

  /** The first candidate no file has. */
  ghost predicate FirstFree(name: string, base: string, disk: Disk) {
    name !in disk
    && exists i: nat :: name == Candidate(base, i) && forall j :: 0 <= j < i ==> Candidate(base, j) in disk
  }

  /** The names tried so far are as many as the tries, so a free one comes up. */
  lemma {:induction false} TriedNames(base: string, n: nat, disk: Disk)
    requires forall j :: 0 <= j < n ==> Candidate(base, j) in disk
    ensures n <= |disk|
  {
    var tried := set j | 0 <= j < n :: Candidate(base, j);
    TriedSize(base, n);
    assert tried <= disk.Keys;
    Sorting.SubsetSize(tried, disk.Keys);
  }

  lemma {:induction false} TriedSize(base: string, n: nat)
    ensures |set j | 0 <= j < n :: Candidate(base, j)| == n
  {
    if n > 0 {
      TriedSize(base, n - 1);
      var before := set j | 0 <= j < n - 1 :: Candidate(base, j);
      forall j | 0 <= j < n - 1 ensures Candidate(base, j) != Candidate(base, n - 1) {
        if Candidate(base, j) == Candidate(base, n - 1) {
          CandidatesDiffer(base, j, n - 1);
        }
      }
      assert (set j | 0 <= j < n :: Candidate(base, j)) == before + {Candidate(base, n - 1)};
    }
  }

  // ---- the writer ----

  datatype Outcome = Written | Closed | HasNewline

  /** The bytes AppendLine writes for a line. */
  function LineData(line: string): string {
    (if HasSuffix(line, "\r") then line[..|line| - 1] else line) + "\n"
  }

  class Writer {
    const path: string
    const opts: Options
    var disk: Disk
    var buffer: string
    var size: nat
    var closed: bool
    /** The log so far and the names its rotated files were given. */
    ghost var log: Log
    ghost var names: seq<string>

    ghost predicate Valid()
      reads this
    {
      && opts.rotateMaxBytes > 0 && (opts.flushEachWrite || opts.syncEachWrite)
      && path in disk && buffer == "" && disk[path] == TextOf(log.current)
      && (!closed ==> size == |disk[path]|)
      && |names| == |log.rotated|
      && (forall i :: 0 <= i < |names| ==>
            names[i] != path && names[i] in disk && disk[names[i]] == TextOf(log.rotated[i]))
      && (forall i, j :: 0 <= i < j < |names| ==> names[i] != names[j])
    }

    /** The named files existed before and hold what they held. */
    twostate predicate Untouched()
      reads this
    {
      forall f :: f in old(disk) && f != path ==> f in disk && disk[f] == old(disk)[f]
    }

    constructor (path: string, options: Options, disk: Disk)
      ensures Valid() && !closed && this.path == path && opts == Normalized(options)
      ensures log == Start(if path in disk then disk[path] else "")
      ensures this.disk == (if path in disk then disk else disk[path := ""])
    {
      this.path, this.opts := path, Normalized(options);
      var content := if path in disk then disk[path] else "";
      this.disk := if path in disk then disk else disk[path := ""];
      this.buffer, this.size, this.closed := "", |content|, false;
      this.log, this.names := Start(content), [];
      assert content + "" == content;
    }

    method FreeName(base: string) returns (name: string)
      ensures FirstFree(name, base, disk)
    {
      name := base;
      var i := 0;
      while name in disk
        invariant name == Candidate(base, i)
        invariant forall j :: 0 <= j < i ==> Candidate(base, j) in disk
        decreases |disk| - i
      {
        TriedNames(base, i + 1, disk);
        i := i + 1;
        name := base + "." + Itoa(i);
      }
    }

    /** Between calls there is nothing to flush. */
    method Flush()
      requires path in disk
      modifies `disk, `buffer
      ensures disk == old(disk)[path := old(disk[path]) + old(buffer)] && buffer == ""
      ensures old(buffer) == "" ==> disk == old(disk)
    {
      disk := disk[path := disk[path] + buffer];
      buffer := "";
      assert old(disk[path]) + "" == old(disk[path]);
    }

    /** Renames the current file and starts an empty one. */
    method Rename(name: string)
      requires Valid() && !closed && name !in disk
      modifies this
      ensures Valid() && !closed && Untouched()
      ensures log == Log(old(log).rotated + [old(log).current], Piece("", []))
      ensures names == old(names) + [name]
    {
      disk := disk[name := disk[path]];
      disk := disk[path := ""];
      size := 0;
      log, names := Log(log.rotated + [log.current], Piece("", [])), names + [name];
    }

    /** Moves the current file to the first free name and starts an empty one. */
    method Rotate(stamp: string) returns (name: string)
      requires Valid() && !closed
      modifies this
      ensures Valid() && !closed && Untouched()
      ensures FirstFree(name, path + "." + stamp, old(disk))
      ensures log == Log(old(log).rotated + [old(log).current], Piece("", []))
      ensures names == old(names) + [name]
    {
      Flush();
      name := FreeName(path + "." + stamp);
      Rename(name);
    }

    /** What one append leaves on disk: nothing that existed is lost or changed but the current
        file, and at most one new name. */
    method AppendBytes(data: string, stamp: string) returns (out: Outcome)
      requires Valid()
      modifies this
      ensures Valid() && closed == old(closed) && Untouched()
      ensures out == if old(closed) then Closed else Written
      ensures log == if old(closed) then old(log) else Append(old(log), data, opts.rotateMaxBytes)
      ensures old(names) <= names && forall i :: |old(names)| <= i < |names| ==> names[i] !in old(disk)
    {
      if closed {
        return Closed;
      }
      if opts.rotateMaxBytes > 0 && size + |data| > opts.rotateMaxBytes {
        var _ := Rotate(stamp);
      }
      Write(data);
      return Written;
    }

    method Write(data: string)
      requires Valid() && !closed
      modifies `disk, `buffer, `size, `log
      ensures Valid() && !closed && Untouched()
      ensures log == old(log).(current := AppendTo(old(log).current, data))
    {
      TextAppend(log.current, data);
      buffer := buffer + data;
      assert buffer == data;
      size := size + |data|;
      if opts.flushEachWrite || opts.syncEachWrite {
        Flush();
      }
      assert disk[path] == old(disk[path]) + data;
      log := log.(current := AppendTo(log.current, data));
      assert disk[path] == TextOf(log.current);
    }

    method AppendLine(line: string, stamp: string) returns (out: Outcome)
      requires Valid()
      modifies this
      ensures Valid() && closed == old(closed) && Untouched()
      ensures out == if '\n' in line then HasNewline else if old(closed) then Closed else Written
      ensures log == if out == Written then Append(old(log), LineData(line), opts.rotateMaxBytes) else old(log)
      ensures old(names) <= names
    {
      if '\n' in line {
        return HasNewline;
      }
      out := AppendBytes(LineData(line), stamp);
    }

    method Close()
      requires Valid()
      modifies this
      ensures Valid() && closed && log == old(log) && disk == old(disk) && names == old(names)
    {
      if closed {
        return;
      }
      closed := true;
      Flush();
      size := 0;
    }
  }
}
