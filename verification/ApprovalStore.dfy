/** The approval records on disk (guard/approvals_file.go) and the locked
    read-change-write they are kept with (internal/fsstore). */
module ApprovalStore {
  import opened Wrappers
  import opened Text

  // ---- records ----

  datatype Status = Pending | Approved | Denied

  /** Times are seconds; 0 is Go's zero time. */
  datatype Record = Record(
    createdAt: int,
    expiresAt: int,
    status: Status,
    actor: string,
    comment: string,
    resolvedAt: Option<int>,
    actionHash: string,
    resumeState: string)

  type Records = map<string, Record>

  const APPROVAL_TTL := 300

  /** What one call asks for, its id already trimmed. */
  datatype Op =
    | Create(id: string, rec: Record)
    | Resolve(id: string, verdict: Status, actor: string, comment: string, now: int)

  function Initial(rec: Record, now: int): Record {
    rec.(createdAt := if rec.createdAt == 0 then now else rec.createdAt,
         expiresAt := if rec.expiresAt == 0 then now + APPROVAL_TTL else rec.expiresAt,
         status := Pending)
  }

  /** A resolve finds something to change. */
  predicate Open(m: Records, id: string) {
    id in m && m[id].status == Pending
  }

  predicate Writes(m: Records, op: Op) {
    op.Create? || Open(m, op.id)
  }

  /** The table after an operation that runs on its own. */
  function Apply(m: Records, op: Op): Records {
    match op
    case Create(id, rec) => m[id := rec]
    case Resolve(id, verdict, actor, comment, now) =>
      if Open(m, id) then
        m[id := m[id].(status := verdict, actor := Trim(actor), comment := Trim(comment),
                       resolvedAt := Some(now))]
      else m
  }

  // ---- the store as one process sees it ----

  class FileApprovalStore {
    /** The approvals file, absent until the first write. */
    var file: Option<Records>

    function Table(): Records
      reads this
    {
      file.GetOr(map[])
    }

    constructor ()
      ensures Table() == map[]
    {
      file := None;
    }

    method Create(id: string, random: string, rec: Record, now: int) returns (r: string)
      modifies this
      ensures r == if Trim(id) == "" then "apr_" + random else Trim(id)
      ensures Table() == Apply(old(Table()), Op.Create(r, Initial(rec, now)))
    {
      r := Trim(id);
      if r == "" {
        r := "apr_" + random;
      }
      var state := file.GetOr(map[]);
      state := state[r := Initial(rec, now)];
      file := Some(state);
    }

    method Get(id: string) returns (r: Option<Record>)
      ensures r == if Trim(id) in Table() && Trim(id) != "" then Some(Table()[Trim(id)]) else None
    {
      var key := Trim(id);
      if key == "" {
        return None;
      }
      var state := file.GetOr(map[]);
      r := if key in state then Some(state[key]) else None;
    }

    /** Resolving an unknown or already resolved record succeeds and changes nothing. */
    method Resolve(id: string, status: Status, actor: string, comment: string, now: int)
      returns (r: Result<()>)
      modifies this
      ensures r.Ok? <==> Trim(id) != "" && status != Pending
      ensures Table() == if r.Ok? then Apply(old(Table()), Op.Resolve(Trim(id), status, actor, comment, now))
                         else old(Table())
    {
      var key := Trim(id);
      if key == "" {
        return Err("missing approval id");
      }
      if status != Approved && status != Denied {
        return Err("invalid approval status");
      }
      var state := file.GetOr(map[]);
      if key !in state || state[key].status != Pending {
        return Ok(());
      }
      var rec := state[key].(status := status, actor := Trim(actor), comment := Trim(comment),
                             resolvedAt := Some(now));
      file := Some(state[key := rec]);
      r := Ok(());
    }
  }

  // ---- many processes on one file ----

  /** A file someone is still writing, or a complete one. */
  datatype Content = Partial | Whole(records: Records)

  /** How far a process has come with its operation; from Locked to Saved it holds the lock. */
  datatype Phase =
    | Idle
    | Waiting(op: Op)
    | Locked(op: Op)
    | Loaded(op: Op, copy: Records)
    | Writing(op: Op, next: Records, tmp: nat)
    | Written(op: Op, next: Records, tmp: nat)
    | Saved(op: Op)
    | Failed(op: Op)

  datatype World = World(
    main: Option<Content>,
    temps: map<nat, Content>,
    holder: Option<nat>,
    procs: map<nat, Phase>)

  datatype Step =
    | Begin(p: nat, op: Op)
    | GiveUp(p: nat)
    | Acquire(p: nat)
    | Load(p: nat)
    | LeaveAlone(p: nat)
    | OpenTemp(p: nat, tmp: nat)
    | WriteTemp(p: nat)
    | Rename(p: nat)
    | FailWrite(p: nat)
    | Release(p: nat)
    | Crash(p: nat)

  function PhaseOf(w: World, p: nat): Phase {
    if p in w.procs then w.procs[p] else Idle
  }

  predicate Critical(ph: Phase) {
    !ph.Idle? && !ph.Waiting?
  }

  /** What a reader that opens the file now gets; None when the file is half written. */
  function Read(w: World): Option<Records> {
    match w.main
    case None => Some(map[])
    case Some(Whole(m)) => Some(m)
    case Some(Partial) => None
  }

  function Table(w: World): Records {
    Read(w).GetOr(map[])
  }

  predicate Enabled(w: World, s: Step) {
    var ph := PhaseOf(w, s.p);
    match s
    case Begin(_, op) => ph.Idle? && (op.Resolve? ==> op.verdict != Pending)
                                  && (op.Create? ==> op.rec.status == Pending)
    case GiveUp(_) => ph.Waiting?
    case Acquire(_) => ph.Waiting? && w.holder.None?
    case Load(_) => ph.Locked? && Read(w).Some?
    case LeaveAlone(_) => ph.Loaded? && !Writes(ph.copy, ph.op)
    case OpenTemp(_, tmp) => ph.Loaded? && Writes(ph.copy, ph.op) && tmp !in w.temps
    case WriteTemp(_) => ph.Writing?
    case Rename(_) => ph.Written? && ph.tmp in w.temps
    case FailWrite(_) => ph.Writing? || ph.Written?
    case Release(_) => ph.Saved? || ph.Failed?
    case Crash(_) => true
  }

  function Move(w: World, p: nat, ph: Phase): World {
    w.(procs := w.procs[p := ph])
  }

  function Do(w: World, s: Step): World
    requires Enabled(w, s)
  {
    var p, ph := s.p, PhaseOf(w, s.p);
    match s
    case Begin(_, op) => Move(w, p, Waiting(op))
    case GiveUp(_) => Move(w, p, Idle)
    case Acquire(_) => Move(w, p, Locked(ph.op)).(holder := Some(p))
    case Load(_) => Move(w, p, Loaded(ph.op, Read(w).value))
    case LeaveAlone(_) => Move(w, p, Saved(ph.op))
    case OpenTemp(_, tmp) =>
      Move(w, p, Writing(ph.op, Apply(ph.copy, ph.op), tmp)).(temps := w.temps[tmp := Partial])
    case WriteTemp(_) =>
      Move(w, p, Written(ph.op, ph.next, ph.tmp)).(temps := w.temps[ph.tmp := Whole(ph.next)])
    case Rename(_) =>
      Move(w, p, Saved(ph.op)).(main := Some(w.temps[ph.tmp]), temps := w.temps - {ph.tmp})
    case FailWrite(_) => Move(w, p, Failed(ph.op)).(temps := w.temps - {ph.tmp})
    case Release(_) => Move(w, p, Idle).(holder := None)
    // The system drops a dead process's lock; its temp file stays behind.
    case Crash(_) => Move(w, p, Idle).(holder := if w.holder == Some(p) then None else w.holder)
  }

  /** Ids are random when a record is created, so no two creates share one. */
  predicate FreshIds(w: World, s: Step) {
    s.Begin? && s.op.Create? ==>
      s.op.id !in Table(w) && forall p :: p in w.procs ==> !Creating(w.procs[p], s.op.id)
  }

  /** A create of `id` whose record is not in the file yet. */
  predicate Creating(ph: Phase, id: string) {
    !ph.Idle? && !ph.Saved? && !ph.Failed? && ph.op.Create? && ph.op.id == id
  }

  // ---- mutual exclusion and what the holder knows ----

  predicate PhaseInv(w: World, p: nat) {
    var ph := PhaseOf(w, p);
    && (Critical(ph) <==> w.holder == Some(p))
    && (!ph.Idle? && ph.op.Resolve? ==> ph.op.verdict != Pending)
    && (!ph.Idle? && ph.op.Create? ==> ph.op.rec.status == Pending)
    && match ph
       case Loaded(op, copy) => copy == Table(w)
       case Writing(op, next, tmp) => Writes(Table(w), op) && next == Apply(Table(w), op) && tmp in w.temps
       case Written(op, next, tmp) =>
         && Writes(Table(w), op) && next == Apply(Table(w), op)
         && tmp in w.temps && w.temps[tmp] == Whole(next)
       case Saved(op) => op.Resolve? ==> !Open(Table(w), op.id)
       case _ => true
  }

  ghost predicate Inv(w: World) {
    Read(w).Some? && forall p: nat :: PhaseInv(w, p)
  }

  predicate FreshPair(w: World, p: nat, q: nat) {
    var ph := PhaseOf(w, p);
    !ph.Idle? && Creating(ph, ph.op.id) ==>
      ph.op.id !in Table(w) && (p != q ==> !Creating(PhaseOf(w, q), ph.op.id))
  }

  /** Creates in flight have distinct ids that are not in the file. */
  ghost predicate FreshInv(w: World) {
    forall p: nat, q: nat :: FreshPair(w, p, q)
  }

  lemma InvKept(w: World, s: Step)
    requires Inv(w) && Enabled(w, s)
    ensures Inv(Do(w, s))
  {
    var w' := Do(w, s);
    assert PhaseInv(w, s.p);
    forall q: nat ensures PhaseInv(w', q) {
      assert PhaseInv(w, q);
    }
  }

  /** Main result: the many-step protocol with crashes behaves as one atomic table. Only the
      rename changes what readers see, and it applies exactly the holder's operation to the
      current table; an operation that ends without a rename had nothing to apply. */
  lemma StepIsAtomic(w: World, s: Step)
    requires Inv(w) && Enabled(w, s)
    ensures Inv(Do(w, s))
    ensures s.Rename? ==> Table(Do(w, s)) == Apply(Table(w), PhaseOf(w, s.p).op)
    ensures !s.Rename? ==> Table(Do(w, s)) == Table(w)
    ensures s.LeaveAlone? ==> Apply(Table(w), PhaseOf(w, s.p).op) == Table(w)
  {
    InvKept(w, s);
    assert PhaseInv(w, s.p);
  }

  lemma FreshInvKept(w: World, s: Step)
    requires Inv(w) && FreshInv(w) && Enabled(w, s) && FreshIds(w, s)
    ensures FreshInv(Do(w, s))
  {
    var w' := Do(w, s);
    StepIsAtomic(w, s);
    forall a: nat, b: nat ensures FreshPair(w', a, b) {
      assert FreshPair(w, a, b) && FreshPair(w, a, s.p) && FreshPair(w, s.p, a);
    }
  }

  // ---- whole runs ----

  predicate Valid(w: World, steps: seq<Step>)
    decreases |steps|
  {
    steps == [] ||
    (Enabled(w, steps[0]) && FreshIds(w, steps[0]) && Valid(Do(w, steps[0]), steps[1..]))
  }

  function After(w: World, steps: seq<Step>): World
    requires Valid(w, steps)
    decreases |steps|
  {
    if steps == [] then w else After(Do(w, steps[0]), steps[1..])
  }

  /** The record is the same up to a resolution that had not happened yet. */
  predicate Extends(old_: Record, new_: Record) {
    if old_.status != Pending then new_ == old_
    else new_ == old_.(status := new_.status, actor := new_.actor, comment := new_.comment,
                       resolvedAt := new_.resolvedAt)
         && (new_.status == Pending ==> new_ == old_)
  }

  predicate Grows(m: Records, m': Records) {
    forall id :: id in m ==> id in m' && Extends(m[id], m'[id])
  }

  lemma StepGrows(w: World, s: Step)
    requires Inv(w) && FreshInv(w) && Enabled(w, s)
    ensures Grows(Table(w), Table(Do(w, s)))
  {
    StepIsAtomic(w, s);
    assert PhaseInv(w, s.p) && FreshPair(w, s.p, s.p);
  }

  /** Main result: over any interleaving of creates, resolves, failures and crashes, no
      committed record is ever lost, what was asked for approval never changes, and once a
      record is resolved every later read returns that same record. */
  lemma {:induction false} ApprovalsAreWriteOnce(w: World, steps: seq<Step>)
    requires Inv(w) && FreshInv(w) && Valid(w, steps)
    ensures Inv(After(w, steps)) && FreshInv(After(w, steps))
    ensures Grows(Table(w), Table(After(w, steps)))
    decreases |steps|
  {
    if steps != [] {
      var mid := Do(w, steps[0]);
      StepGrows(w, steps[0]);
      InvKept(w, steps[0]);
      FreshInvKept(w, steps[0]);
      ApprovalsAreWriteOnce(mid, steps[1..]);
    }
  }

  /** How many steps of the run turned the record from pending to resolved. */
  function Resolutions(w: World, steps: seq<Step>, id: string): nat
    requires Valid(w, steps)
    decreases |steps|
  {
    if steps == [] then 0
    else
      var mid := Do(w, steps[0]);
      (if Open(Table(w), id) && !Open(Table(mid), id) then 1 else 0) + Resolutions(mid, steps[1..], id)
  }

  /** Main result: of all the resolves of a record, concurrent or not, at most one takes
      effect; exactly one does if the record ends up resolved. */
  lemma {:induction false} OneResolutionTakesEffect(w: World, steps: seq<Step>, id: string)
    requires Inv(w) && FreshInv(w) && Valid(w, steps)
    requires id in Table(w)
    ensures Resolutions(w, steps, id) == if Open(Table(w), id) && !Open(Table(After(w, steps)), id) then 1 else 0
    decreases |steps|
  {
    if steps != [] {
      var mid := Do(w, steps[0]);
      StepGrows(w, steps[0]);
      InvKept(w, steps[0]);
      FreshInvKept(w, steps[0]);
      OneResolutionTakesEffect(mid, steps[1..], id);
      ApprovalsAreWriteOnce(mid, steps[1..]);
    }
  }

  /** A resolve that reports success leaves a record that exists resolved, by it or by another. */
  lemma SuccessMeansResolved(w: World, p: nat)
    requires Inv(w) && PhaseOf(w, p).Saved? && PhaseOf(w, p).op.Resolve?
    ensures !Open(Table(w), PhaseOf(w, p).op.id)
    ensures Enabled(w, Release(p)) && !Open(Table(Do(w, Release(p))), PhaseOf(w, p).op.id)
  {
    assert PhaseInv(w, p);
  }

  lemma StartIsGood(w: World)
    requires w.main.None? && w.holder.None? && w.procs == map[]
    ensures Inv(w) && FreshInv(w)
  {
  }

  /** The one way to lose a committed record is to create under an id already in use, which
      only a caller that supplies its own id can do. */
  lemma CreateKeepsRecordsIff(m: Records, id: string, rec: Record)
    requires rec.status == Pending
    ensures Grows(m, Apply(m, Op.Create(id, rec))) <==> id !in m || m[id] == rec
  {
    var m' := Apply(m, Op.Create(id, rec));
    if id in m && m[id] != rec {
      assert !Extends(m[id], m'[id]);
    }
  }
}
