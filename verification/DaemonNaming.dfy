/** Final answers that name an approval (cmd/mistermorph/daemoncmd/serve.go:154-170, 520-541). */
module DaemonNaming {
  import opened Wrappers
  import opened Text
  import opened TaskStore
  import opened DaemonProtocol
  import A = ApprovalStore
  import Runs

  // ---- runs ----

  predicate Twice(xs: seq<string>, a: string) {
    exists i, j :: 0 <= i < j < |xs| && xs[i] == a && xs[j] == a
  }

  lemma TwiceAppend(xs: seq<string>, b: string, a: string)
    ensures Twice(xs + [b], a) <==> Twice(xs, a) || (b == a && a in xs)
  {
    var all := xs + [b];
    if Twice(all, a) {
      var i, j :| 0 <= i < j < |all| && all[i] == a && all[j] == a;
      assert xs[i] == a && (j < |xs| ==> xs[j] == a);
    }
    if Twice(xs, a) {
      var i, j :| 0 <= i < j < |xs| && xs[i] == a && xs[j] == a;
      assert all[i] == a && all[j] == a;
    }
    if b == a && a in xs {
      var i :| 0 <= i < |xs| && xs[i] == a;
      assert all[i] == a && all[|xs|] == a;
    }
  }

  /** A step whose ids are fresh. */
  ghost predicate Next(s: State, t: State) {
    exists step :: Enabled(s, step) && FreshId(s, step) && Do(s, step) == t
  }

  /** A run of fresh steps leads from s to t. */
  ghost predicate Leads(s: State, t: State) {
    Runs.Leads(Next, s, t)
  }

  lemma LeadsNowhere(s: State)
    ensures Leads(s, s)
  {
    Runs.LeadsNowhere(Next, s);
  }

  lemma LeadsOn(s: State, t: State, u: State)
    requires Leads(s, t) && Leads(t, u)
    ensures Leads(s, u)
  {
    Runs.LeadsOn(Next, s, t, u);
  }

  lemma LeadsStep(s: State, t: State, step: Step)
    requires Leads(s, t) && Enabled(t, step) && FreshId(t, step)
    ensures Leads(s, Do(t, step))
  {
    Runs.LeadsStep(Next, s, t, Do(t, step));
  }

  lemma LeadsKeepInv(s: State, t: State)
    requires Inv(s) && Leads(s, t)
    ensures Inv(t)
  {
    forall x, y | Inv(x) && Next(x, y) ensures Inv(y) {
      var step :| Enabled(x, step) && FreshId(x, step) && Do(x, step) == y;
      InvKept(x, step);
    }
    Runs.LeadsKeep(Next, Inv, s, t);
  }

  // ---- the worker can always make room ----

  predicate Resumable(s: State, id: TaskId) {
    id in s.q.tasks && (s.q.tasks[id].resume == "" || Approved(s, s.q.tasks[id].resume))
  }

  /** The worker is idle and can take whatever is in line. */
  predicate Drainable(s: State) {
    s.worker.Idle? && s.q.cap > 0 && forall k :: 0 <= k < |s.q.line| ==> Resumable(s, s.q.line[k])
  }

  /** Everything is as before but the tasks that were in line. */
  ghost predicate SameOutside(s: State, t: State, line: seq<TaskId>) {
    && t.q.cap == s.q.cap && t.approvals == s.approvals && t.accepted == s.accepted && t.checked == s.checked
    && t.q.tasks.Keys == s.q.tasks.Keys
    && forall k :: k in s.q.tasks && k !in line ==> t.q.tasks[k] == s.q.tasks[k]
  }

  /** The first task in line taken, run into an error, and finished. */
  function Taken(s: State): State
    requires Drainable(s) && s.q.line != []
  {
    var id := s.q.line[0];
    var t := s.q.tasks[id];
    s.(q := Queue(s.q.tasks[id := Broken(t.(resume := ""))], s.q.line[1..], s.q.cap))
  }

  /** The first task in line, taken and marked as running. */
  function Begun(s: State): State
    requires Drainable(s) && s.q.line != []
  {
    var id := s.q.line[0];
    s.(worker := Started(id, s.q.tasks[id].resume),
       q := Queue(s.q.tasks[id := s.q.tasks[id].(status := Running, resume := "")], s.q.line[1..], s.q.cap))
  }

  lemma Take(s: State)
    requires Drainable(s) && s.q.line != []
    ensures Leads(s, Begun(s))
  {
    var id := s.q.line[0];
    assert Resumable(s, id);
    var resume := s.q.tasks[id].resume;
    var taken := s.(q := s.q.(line := s.q.line[1..]), worker := Read(id, resume));
    TakeOff(s);
    TakeOn(taken, id, resume);
    LeadsOn(s, taken, Begun(s));
  }

  lemma TakeOff(s: State)
    requires Drainable(s) && s.q.line != []
    ensures s.q.line[0] in s.q.tasks
    ensures var id := s.q.line[0];
      Leads(s, s.(q := s.q.(line := s.q.line[1..]), worker := Read(id, s.q.tasks[id].resume)))
  {
    assert Resumable(s, s.q.line[0]);
    TrimIdle(s.q.tasks[s.q.line[0]].resume);
    var s1 := Do(s, WorkerNext);
    LeadsNowhere(s);
    LeadsStep(s, s, WorkerNext);
    LeadsStep(s, s1, WorkerRead);
  }

  lemma TakeOn(s: State, id: TaskId, resume: string)
    requires s.worker == Read(id, resume) && id in s.q.tasks && s.q.tasks[id].resume == resume
    ensures Leads(s, SetTask(s, id, s.q.tasks[id].(status := Running, resume := "")).(worker := Started(id, resume)))
  {
    var running := s.q.tasks[id].(status := Running);
    var marked := SetTask(s, id, running).(worker := Marked(id, resume));
    LeadsNowhere(s);
    LeadsStep(s, s, WorkerMark);
    assert Do(s, WorkerMark) == marked;
    ClearMark(marked, id, resume);
    assert s.q.tasks[id := running][id := running.(resume := "")] == s.q.tasks[id := running.(resume := "")];
    LeadsOn(s, marked, SetTask(s, id, running.(resume := "")).(worker := Started(id, resume)));
  }

  lemma ClearMark(s: State, id: TaskId, resume: string)
    requires s.worker == Marked(id, resume) && id in s.q.tasks && s.q.tasks[id].resume == resume
    ensures Leads(s, SetTask(s, id, s.q.tasks[id].(resume := "")).(worker := Started(id, resume)))
  {
    LeadsNowhere(s);
    LeadsStep(s, s, WorkerClear);
    assert s.q.tasks[id := s.q.tasks[id]] == s.q.tasks;
    assert Do(s, WorkerClear) == SetTask(s, id, s.q.tasks[id].(resume := "")).(worker := Started(id, resume));
  }

  /** A task after a run that broke off. */
  function Broken(t: Task): Task {
    t.(status := if t.cancelled then Canceled else Failed, cancelled := true)
  }

  lemma CloseUp(s: State, id: TaskId)
    requires s.worker == Ended(id, Errored(false)) && id in s.q.tasks
    ensures Leads(s, SetTask(s, id, Broken(s.q.tasks[id])).(worker := Idle))
  {
    var t := SetTask(s, id, Broken(s.q.tasks[id])).(worker := Idle);
    var s1 := Do(s, WorkerStore);
    LeadsNowhere(s);
    LeadsStep(s, s, WorkerStore);
    LeadsStep(s, s1, WorkerCancel);
    assert Do(s1, WorkerCancel).q.tasks == t.q.tasks;
  }

  function BrokenOff(s: State): State
    requires Drainable(s) && s.q.line != []
  {
    Begun(s).(worker := Ended(s.q.line[0], Errored(false)))
  }

  /** A run that breaks off at once. */
  lemma BreakOff(s: State)
    requires Drainable(s) && s.q.line != []
    ensures Leads(Begun(s), BrokenOff(s))
  {
    var t := Begun(s);
    assert Resumable(s, s.q.line[0]);
    LeadsNowhere(t);
    LeadsStep(t, t, WorkerRun(0, true));
    assert Do(t, WorkerRun(0, true)) == BrokenOff(s);
  }

  lemma TakenIs(s: State)
    requires Drainable(s) && s.q.line != []
    ensures var b, id := BrokenOff(s), s.q.line[0];
      id in b.q.tasks && SetTask(b, id, Broken(b.q.tasks[id])).(worker := Idle) == Taken(s)
  {
    var id, b := s.q.line[0], BrokenOff(s);
    assert Resumable(s, id);
    assert b.q.tasks[id := Broken(b.q.tasks[id])] == Taken(s).q.tasks;
  }

  lemma TakeFirst(s: State)
    requires Drainable(s) && s.q.line != []
    ensures Leads(s, Taken(s))
  {
    Take(s);
    BreakOff(s);
    TakenIs(s);
    CloseUp(BrokenOff(s), s.q.line[0]);
    LeadsOn(s, Begun(s), BrokenOff(s));
    LeadsOn(s, BrokenOff(s), Taken(s));
  }

  lemma TakenIsDrainable(s: State)
    requires Drainable(s) && s.q.line != []
    ensures Drainable(Taken(s)) && SameOutside(s, Taken(s), s.q.line)
  {
    assert Resumable(s, s.q.line[0]);
    forall k | 0 <= k < |Taken(s).q.line| ensures Resumable(Taken(s), Taken(s).q.line[k]) {
      assert Resumable(s, s.q.line[k + 1]);
    }
  }

  lemma {:induction false} Drain(s: State) returns (t: State)
    requires Drainable(s)
    ensures Leads(s, t) && Drainable(t) && t.q.line == [] && SameOutside(s, t, s.q.line)
    decreases |s.q.line|
  {
    if s.q.line == [] {
      LeadsNowhere(s);
      t := s;
    } else {
      TakeFirst(s);
      TakenIsDrainable(s);
      t := Drain(Taken(s));
      LeadsOn(s, Taken(s), t);
    }
  }

  /** With the line empty a waiting task whose approval is approved can be resumed. */
  lemma Resume(s: State, id: TaskId, a: string) returns (t: State)
    requires Drainable(s) && id !in s.q.line && Approved(s, a)
    requires Waits(s.q, a, id) && s.q.tasks[id].resume == ""
    ensures Leads(s, t) && Drainable(t) && t.accepted == s.accepted + [a] && t.q.line == [id]
    ensures t.approvals == s.approvals && t.q.tasks.Keys == s.q.tasks.Keys
    ensures forall k :: k in s.q.tasks && k !in s.q.line && k != id ==> t.q.tasks[k] == s.q.tasks[k]
  {
    var u := Drain(s);
    var v := Do(u, CheckResume(a));
    LeadsStep(s, u, CheckResume(a));
    TrimIdle("");
    LeadsStep(s, v, EnqueueResume(a, id));
    t := Do(v, EnqueueResume(a, id));
  }

  // ---- when a named approval can be accepted twice ----

  /** The approval was accepted before, or it can still be accepted for another task. */
  ghost predicate Doubling(s: State, id: TaskId, a: string) {
    || a in s.accepted
    || (&& a in s.approvals && s.approvals[a].status != A.Denied
        && exists j :: j != id && Waits(s.q, a, j))
  }

  /** A later state in which the approval has been accepted twice. */
  ghost predicate DoubledIn(t: State, a: string, u: State) {
    Leads(t, u) && Twice(u.accepted, a)
  }

  /** The state after the answer has been stored. */
  function Stored(s: State, id: TaskId, a: string): State
    requires s.worker == InRun(id) && id in s.q.tasks
  {
    SetTask(s, id, s.q.tasks[id].(status := Pending, approval := a)).(worker := Idle)
  }

  lemma StoredIsDrainable(s: State, id: TaskId, a: string)
    requires Inv(s) && s.worker == InRun(id) && a != "" && Trimmed(a)
    ensures id in s.q.tasks && Leads(Do(s, WorkerName(a)), Stored(s, id, a))
    ensures Drainable(Stored(s, id, a)) && id !in s.q.line && s.q.tasks[id].resume == ""
  {
    var s1 := Do(s, WorkerName(a));
    assert TaskInv(s, id);
    LeadsNowhere(s1);
    LeadsStep(s1, s1, WorkerStore);
    assert Do(s1, WorkerStore) == Stored(s, id, a);
    forall k | 0 <= k < |s.q.line| ensures Resumable(Stored(s, id, a), s.q.line[k]) {
      assert TaskInv(s, s.q.line[k]);
    }
  }

  /** A pending task that was not queued again is not in line. */
  lemma WaitingIsApart(s: State, j: TaskId, a: string)
    requires Inv(s) && Waits(s.q, a, j) && a !in s.accepted
    ensures s.q.tasks[j].approval == a && s.q.tasks[j].resume == "" && j !in s.q.line
  {
    assert TaskInv(s, j);
    TrimIdle(s.q.tasks[j].approval);
  }

  /** The record approved, if it was not yet. */
  lemma Granted(s: State, a: string) returns (t: State)
    requires a in s.approvals && s.approvals[a].status != A.Denied && a != "" && Trimmed(a) && Drainable(s)
    ensures Leads(s, t) && Approved(t, a) && Drainable(t) && t == s.(approvals := t.approvals)
  {
    LeadsNowhere(s);
    if s.approvals[a].status == A.Approved {
      t := s;
    } else {
      var op := A.Resolve(a, A.Approved, "", "", 0);
      t := Do(s, Approve(a, op));
      LeadsStep(s, s, Approve(a, op));
      forall k | 0 <= k < |s.q.line| ensures Resumable(t, s.q.line[k]) {
        assert Resumable(s, s.q.line[k]);
      }
    }
  }

  lemma DoublingCanHappen(s: State, id: TaskId, a: string) returns (u: State)
    requires Inv(s) && s.worker == InRun(id) && a != "" && Trimmed(a) && Doubling(s, id, a)
    ensures DoubledIn(Do(s, WorkerName(a)), a, u)
  {
    var s1 := Do(s, WorkerName(a));
    StoredIsDrainable(s, id, a);
    var s2 := Stored(s, id, a);
    TrimIdle(a);
    if a in s.accepted {
      u := Resume(s2, id, a);
      LeadsOn(s1, s2, u);
    } else {
      var j :| j != id && Waits(s.q, a, j);
      WaitingIsApart(s, j, a);
      var s3 := Granted(s2, a);
      var s4 := Resume(s3, j, a);
      u := Resume(s4, id, a);
      LeadsOn(s1, s2, s3);
      LeadsOn(s1, s3, s4);
      LeadsOn(s1, s4, u);
      TwiceAppend(s.accepted, a, a);
    }
    TwiceAppend(if a in s.accepted then s.accepted else s.accepted + [a], a, a);
  }

  // ---- otherwise it is accepted at most once ----

  /** The approval has no record, and the task that names it keeps everyone from asking under it. */
  predicate Claims(s: State, id: TaskId, a: string) {
    && id in s.q.tasks && id !in s.q.line && id !in s.submitting && id !in s.undoing
    && ((s.worker == Ended(id, Paused(a)) && s.q.tasks[id].status == Running)
        || (!Holds(s, id) && s.q.tasks[id].approval == a))
  }

  /** Nobody can resume for the approval, now or later. */
  predicate Hopeless(s: State, id: TaskId, a: string) {
    && a !in s.accepted && a !in s.checked
    && if a in s.approvals then s.approvals[a].status == A.Denied else Claims(s, id, a)
  }

  lemma DeniedStaysDenied(s: State, step: Step, a: string)
    requires a in s.approvals && s.approvals[a].status == A.Denied && a !in s.accepted && a !in s.checked
    requires Enabled(s, step) && FreshId(s, step)
    ensures var t := Do(s, step);
      a in t.approvals && t.approvals[a].status == A.Denied && a !in t.accepted && a !in t.checked
  {
    ApprovalsAfter(s, step);
    ChecksAfter(s, step, a);
    AcceptedAfter(s, step, a);
  }

  lemma ApprovalsAfter(s: State, step: Step)
    requires Enabled(s, step)
    ensures Do(s, step).approvals
         == if step.Approve? || step.Deny? then A.Apply(s.approvals, step.op)
            else if step.WorkerAsk? then s.approvals[step.a := step.rec] else s.approvals
  {
    if WorkerStep(step) && !step.WorkerAsk? {
      WorkerKeepsApprovals(s, step);
    } else if !step.Approve? && !step.Deny? && !step.WorkerAsk? {
      OthersKeepApprovals(s, step);
    }
  }

  lemma OthersKeepApprovals(s: State, step: Step)
    requires Enabled(s, step) && !WorkerStep(step) && !step.Approve? && !step.Deny?
    ensures Do(s, step).approvals == s.approvals
  {
    if step.ContextDone? || step.WorkerNext? {
      assert Do(s, step).approvals == s.approvals;
    }
  }

  lemma WorkerKeepsApprovals(s: State, step: Step)
    requires Enabled(s, step) && WorkerStep(step) && !step.WorkerAsk?
    ensures Do(s, step).approvals == s.approvals
  {
    if step.WorkerClear? {
      assert Do(s, step).approvals == s.approvals;
    }
  }

  lemma ChecksAfter(s: State, step: Step, a: string)
    requires Enabled(s, step)
    ensures a in Do(s, step).checked ==> a in s.checked || step == CheckResume(a)
  {
  }

  lemma AcceptedAfter(s: State, step: Step, a: string)
    requires Enabled(s, step) && a !in s.checked && a !in s.accepted
    ensures a !in Do(s, step).accepted
  {
    StepHistory(s, step);
  }

  /** Without a record there is nothing to approve. */
  lemma MissingStays(s: State, step: Step, a: string)
    requires a !in s.approvals && a !in s.accepted && a !in s.checked && Enabled(s, step)
    requires step.WorkerAsk? ==> step.a != a
    ensures var t := Do(s, step); a !in t.approvals && a !in t.accepted && a !in t.checked
  {
    ApprovalsAfter(s, step);
    ChecksAfter(s, step, a);
    AcceptedAfter(s, step, a);
  }

  /** The worker stores the answer. */
  lemma ClaimStored(s: State, step: Step, id: TaskId, a: string)
    requires Claims(s, id, a) && s.worker == Ended(id, Paused(a)) && Enabled(s, step)
    requires WorkerStep(step) || step.WorkerNext?
    ensures Claims(Do(s, step), id, a)
  {
    assert step == WorkerStore;
  }

  /** The worker takes the next task, which is another. */
  lemma ClaimNext(s: State, id: TaskId, a: string)
    requires Claims(s, id, a) && Enabled(s, WorkerNext)
    ensures Claims(Do(s, WorkerNext), id, a)
  {
    assert s.q.line[0] in s.q.line;
  }

  /** The worker works on another task. */
  lemma ClaimOther(s: State, step: Step, id: TaskId, a: string)
    requires Claims(s, id, a) && s.worker != Ended(id, Paused(a)) && Enabled(s, step)
    requires WorkerStep(step)
    ensures Claims(Do(s, step), id, a)
  {
    if step.WorkerRun? {
      ClaimRun(s, step.now, step.broken, id, a);
    } else if step.WorkerMark? || step.WorkerClear? || step.WorkerStore? || step.WorkerCancel? {
      ClaimChange(s, step, id, a);
    }
  }

  lemma ClaimRun(s: State, now: int, broken: bool, id: TaskId, a: string)
    requires Claims(s, id, a) && Enabled(s, WorkerRun(now, broken))
    ensures Claims(Do(s, WorkerRun(now, broken)), id, a)
  {
    var t := Do(s, WorkerRun(now, broken));
    assert t.q == s.q && t.worker.id == s.worker.id != id;
  }

  lemma ClaimChange(s: State, step: Step, id: TaskId, a: string)
    requires Claims(s, id, a) && s.worker != Ended(id, Paused(a)) && Enabled(s, step)
    requires step.WorkerMark? || step.WorkerClear? || step.WorkerStore? || step.WorkerCancel?
    ensures Claims(Do(s, step), id, a)
  {
    assert s.worker.id != id;
  }

  lemma ClaimStays(s: State, step: Step, id: TaskId, a: string)
    requires Claims(s, id, a) && a !in s.checked && Trimmed(a) && Enabled(s, step)
    ensures Claims(Do(s, step), id, a)
  {
    if s.worker == Ended(id, Paused(a)) && (WorkerStep(step) || step.WorkerNext?) {
      ClaimStored(s, step, id, a);
    } else if step.WorkerNext? {
      ClaimNext(s, id, a);
    } else if WorkerStep(step) {
      ClaimOther(s, step, id, a);
    } else {
      TrimIdle(a);
    }
  }

  lemma MissingStep(s: State, step: Step, id: TaskId, a: string)
    requires Hopeless(s, id, a) && a !in s.approvals && Trimmed(a) && Enabled(s, step) && FreshId(s, step)
    ensures Hopeless(Do(s, step), id, a)
  {
    ClaimStays(s, step, id, a);
    assert s.worker != Ended(id, Paused(a)) ==> s.q.tasks[id].approval == a && Used(s, a);
    MissingStays(s, step, a);
  }

  lemma HopelessStep(s: State, step: Step, id: TaskId, a: string)
    requires Hopeless(s, id, a) && Trimmed(a) && Enabled(s, step) && FreshId(s, step)
    ensures Hopeless(Do(s, step), id, a)
  {
    if a in s.approvals {
      DeniedStaysDenied(s, step, a);
    } else {
      MissingStep(s, step, id, a);
    }
  }

  predicate Waiting(s: State, k: TaskId, a: string) {
    k in s.q.tasks && s.q.tasks[k].status == Pending && s.q.tasks[k].approval == a && s.q.tasks[k].resume == ""
  }

  /** At most one task waits for the approval, none once it was accepted, and no other will. */
  ghost predicate Lone(s: State, a: string) {
    && a in s.approvals && !Twice(s.accepted, a)
    && (forall k :: k in s.q.tasks ==> Trimmed(s.q.tasks[k].approval) && Trimmed(s.q.tasks[k].resume))
    && (forall k :: Waiting(s, k, a) ==> a !in s.accepted)
    && (forall j, k :: Waiting(s, j, a) && Waiting(s, k, a) ==> j == k)
    && LoneWorker(s, a)
  }

  ghost predicate LoneWorker(s: State, a: string) {
    var w := s.worker;
    && (w.Asking? ==> w.approval != a && Trimmed(w.approval))
    && (w.Ended? && w.outcome.Paused? ==> Trimmed(w.outcome.approval))
    && (w.Ended? && w.outcome == Paused(a) ==> a !in s.accepted && forall k :: !Waiting(s, k, a))
    && (w.Marked? || w.Started? || w.InRun? || w.Asking? || w.Ended? ==>
          w.id in s.q.tasks ==> s.q.tasks[w.id].status != Pending)
  }

  predicate TaskTrimmed(s: State, k: TaskId) {
    k in s.q.tasks ==> Trimmed(s.q.tasks[k].approval) && Trimmed(s.q.tasks[k].resume)
  }

  lemma LoneAccept(s: State, b: string, id: TaskId, a: string)
    requires Lone(s, a) && Enabled(s, EnqueueResume(b, id))
    ensures Lone(Do(s, EnqueueResume(b, id)), a)
  {
    var t := Do(s, EnqueueResume(b, id));
    TwiceAppend(s.accepted, b, a);
    TrimIdle(s.q.tasks[id].approval);
    TrimIdle(s.q.tasks[id].resume);
    assert b == s.q.tasks[id].approval && b != "";
    assert b == a ==> Waiting(s, id, a);
    assert t.q.tasks[id].resume == b;
    forall k ensures Waiting(t, k, a) ==> Waiting(s, k, a) && k != id {
    }
    forall k ensures TaskTrimmed(t, k) {
      assert TaskTrimmed(s, k);
    }
    assert LoneWorker(t, a);
  }

  /** Storing a pause makes one task wait; for this approval it is the only one. */
  lemma LoneStore(s: State, a: string)
    requires Lone(s, a) && Enabled(s, WorkerStore)
    ensures Lone(Do(s, WorkerStore), a)
  {
    var t, id := Do(s, WorkerStore), s.worker.id;
    forall k ensures TaskTrimmed(t, k) {
      assert TaskTrimmed(s, k);
    }
    forall k ensures Waiting(t, k, a) ==> Waiting(s, k, a) || (k == id && s.worker.outcome == Paused(a)) {
    }
  }

  /** Asking and naming bring other approvals only. */
  lemma LoneName(s: State, step: Step, a: string)
    requires Lone(s, a) && Enabled(s, step) && FreshId(s, step)
    requires step.WorkerAsk? || step.WorkerName? || step.WorkerPause? || step.WorkerReturn?
    ensures Lone(Do(s, step), a)
  {
    var t := Do(s, step);
    assert t.q == s.q && t.accepted == s.accepted;
    forall k ensures Waiting(t, k, a) <==> Waiting(s, k, a) {
    }
    assert Used(s, a);
    assert LoneWorker(t, a);
  }

  /** No other step changes the task into one that waits. */
  lemma LoneFrame(s: State, t: State, a: string)
    requires Lone(s, a) && t.accepted == s.accepted && a in t.approvals && LoneWorker(t, a)
    requires forall k :: k in t.q.tasks ==> TaskTrimmed(t, k)
    requires forall k :: Waiting(t, k, a) ==> Waiting(s, k, a)
    ensures Lone(t, a)
  {
    forall k | k in t.q.tasks ensures Trimmed(t.q.tasks[k].approval) && Trimmed(t.q.tasks[k].resume) {
      assert TaskTrimmed(t, k);
    }
  }

  lemma LoneWorkerStep(s: State, step: Step, a: string)
    requires Lone(s, a) && Enabled(s, step)
    requires step.WorkerNext? || step.WorkerRead? || step.WorkerMark? || step.WorkerClear? || step.WorkerRun?
          || step.WorkerCancel?
    ensures Lone(Do(s, step), a)
  {
    if step.WorkerRun? {
      LoneRun(s, step.now, step.broken, a);
    } else {
      LoneTaskStep(s, step, a);
    }
  }

  lemma LoneRun(s: State, now: int, broken: bool, a: string)
    requires Lone(s, a) && Enabled(s, WorkerRun(now, broken))
    ensures Lone(Do(s, WorkerRun(now, broken)), a)
  {
    var t := Do(s, WorkerRun(now, broken));
    assert t == s.(worker := t.worker) && t.worker.id == s.worker.id;
    forall k ensures Waiting(t, k, a) <==> Waiting(s, k, a) {
    }
    assert LoneWorker(t, a);
  }

  lemma LoneTaskStep(s: State, step: Step, a: string)
    requires Lone(s, a) && Enabled(s, step)
    requires step.WorkerNext? || step.WorkerRead? || step.WorkerMark? || step.WorkerClear? || step.WorkerCancel?
    ensures Lone(Do(s, step), a)
  {
    var t := Do(s, step);
    TrimIdle("");
    forall k ensures TaskTrimmed(t, k) {
      assert TaskTrimmed(s, k);
    }
    forall k ensures Waiting(t, k, a) ==> Waiting(s, k, a) {
    }
    LoneFrame(s, t, a);
  }

  lemma LoneOtherStep(s: State, step: Step, a: string)
    requires Lone(s, a) && Enabled(s, step)
    requires step.SubmitInsert? || step.SubmitSend? || step.SubmitFull? || step.SubmitDelete? || step.Approve?
          || step.Deny?
          || step.DenyFail? || step.DenyMiss? || step.CheckResume? || step.RejectResume? || step.ContextDone?
    ensures Lone(Do(s, step), a)
  {
    var t := Do(s, step);
    TrimIdle("");
    forall k ensures TaskTrimmed(t, k) {
      assert TaskTrimmed(s, k);
    }
    forall k ensures Waiting(t, k, a) ==> Waiting(s, k, a) {
    }
    assert LoneWorker(t, a);
    LoneFrame(s, t, a);
  }

  lemma LoneStep(s: State, step: Step, a: string)
    requires Lone(s, a) && Enabled(s, step) && FreshId(s, step)
    ensures Lone(Do(s, step), a)
  {
    match step
    case EnqueueResume(b, id) => LoneAccept(s, b, id, a);
    case WorkerStore => LoneStore(s, a);
    case WorkerAsk(_, _) => LoneName(s, step, a);
    case WorkerName(_) => LoneName(s, step, a);
    case WorkerPause => LoneName(s, step, a);
    case WorkerReturn(_) => LoneName(s, step, a);
    case WorkerNext => LoneWorkerStep(s, step, a);
    case WorkerRead => LoneWorkerStep(s, step, a);
    case WorkerMark => LoneWorkerStep(s, step, a);
    case WorkerClear => LoneWorkerStep(s, step, a);
    case WorkerRun(_, _) => LoneWorkerStep(s, step, a);
    case WorkerCancel => LoneWorkerStep(s, step, a);
    case _ => LoneOtherStep(s, step, a);
  }

  /** The approval is out of reach, or can be accepted for one task only. */
  ghost predicate Harmless(s: State, id: TaskId, a: string) {
    Hopeless(s, id, a) || Lone(s, a)
  }

  lemma HarmlessNext(s: State, t: State, id: TaskId, a: string)
    requires Harmless(s, id, a) && Trimmed(a) && Next(s, t)
    ensures Harmless(t, id, a)
  {
    var step :| Enabled(s, step) && FreshId(s, step) && Do(s, step) == t;
    if Lone(s, a) {
      LoneStep(s, step, a);
    } else {
      HopelessStep(s, step, id, a);
    }
  }

  lemma NeverTwice(s: State, t: State, id: TaskId, a: string)
    requires Harmless(s, id, a) && Trimmed(a) && Leads(s, t)
    ensures !Twice(t.accepted, a)
  {
    var kept := x => Harmless(x, id, a);
    forall x, y | kept(x) && Next(x, y) ensures kept(y) {
      HarmlessNext(x, y, id, a);
    }
    Runs.LeadsKeep(Next, kept, s, t);
    assert Harmless(t, id, a);
  }

  lemma NamedIsHarmless(s: State, id: TaskId, a: string)
    requires Inv(s) && s.worker == InRun(id) && a != "" && Trimmed(a) && !Doubling(s, id, a)
    ensures Harmless(Do(s, WorkerName(a)), id, a)
  {
    var t := Do(s, WorkerName(a));
    assert TaskInv(s, id);
    if a in s.approvals && s.approvals[a].status != A.Denied {
      forall k ensures !Waiting(t, k, a) {
        if Waiting(t, k, a) {
          TrimIdle(a);
          assert Waits(s.q, a, k);
          assert false;
        }
      }
      forall k | k in t.q.tasks ensures Trimmed(t.q.tasks[k].approval) && Trimmed(t.q.tasks[k].resume) {
        assert TaskInv(s, k);
      }
      assert Lone(t, a);
    }
  }

  /** Main result: a run that ends with an answer naming an approval can lead to that approval
      being accepted twice if and only if it was accepted before, or another task is waiting for
      it and its record is not denied. Everything else in the run is as usual. */
  lemma NamingDoublesIff(s: State, id: TaskId, a: string)
    requires Inv(s) && s.worker == InRun(id) && a != "" && Trimmed(a)
    ensures Enabled(s, WorkerName(a))
    ensures (exists u :: DoubledIn(Do(s, WorkerName(a)), a, u)) <==> Doubling(s, id, a)
  {
    var t := Do(s, WorkerName(a));
    if Doubling(s, id, a) {
      var u := DoublingCanHappen(s, id, a);
    } else {
      NamedIsHarmless(s, id, a);
      forall u ensures !DoubledIn(t, a, u) {
        if Leads(t, u) {
          NeverTwice(t, u, id, a);
        }
      }
    }
  }

  // ---- the doubling reached from the start ----

  /** One task, nothing else going on. */
  function Scene(
    cap: nat, t: Task, line: seq<TaskId>, worker: Worker, approvals: A.Records, accepted: seq<string>): State
  {
    State(Queue(map[0 := t], line, cap), worker, approvals, {}, {}, multiset{}, multiset{}, accepted, {})
  }

  lemma FirstTask(s: State)
    requires Initial(s)
    ensures Leads(s, Scene(s.q.cap, NEW_TASK, [0], Idle, map[], []))
  {
    var s1 := Do(s, SubmitInsert(0));
    LeadsNowhere(s);
    LeadsStep(s, s, SubmitInsert(0));
    LeadsStep(s, s1, SubmitSend(0));
    assert Do(s1, SubmitSend(0)) == Scene(s.q.cap, NEW_TASK, [0], Idle, map[], []);
  }

  lemma FirstRun(s: State, cap: nat)
    requires cap > 0 && s == Scene(cap, NEW_TASK, [0], Idle, map[], [])
    ensures Leads(s, Scene(cap, NEW_TASK.(status := Running), [], InRun(0), map[], []))
  {
    var t := Scene(cap, NEW_TASK.(status := Running), [], Started(0, ""), map[], []);
    assert Resumable(s, 0);
    Take(s);
    assert Begun(s) == t;
    LeadsStep(s, t, WorkerRun(0, false));
  }

  const ASKED := A.Record(0, 0, A.Pending, "", "", None, "", "")

  lemma PauseFirst(s: State, cap: nat, a: string)
    requires cap > 0 && a != "" && Trimmed(a)
    requires s == Scene(cap, NEW_TASK.(status := Running), [], InRun(0), map[], [])
    ensures Leads(s, Scene(cap, Task(Pending, a, "", false, ""), [], Idle, map[a := ASKED], []))
  {
    var run := NEW_TASK.(status := Running);
    var s1 := Scene(cap, run, [], Asking(0, a), map[a := ASKED], []);
    var s2 := Scene(cap, run, [], Ended(0, Paused(a)), map[a := ASKED], []);
    AskFirst(s, s1, a);
    LeadsStep(s, s1, WorkerPause);
    assert Do(s1, WorkerPause) == s2;
    StoreFirst(s2, cap, a);
    LeadsOn(s, s2, Scene(cap, Task(Pending, a, "", false, ""), [], Idle, map[a := ASKED], []));
  }

  lemma AskFirst(s: State, t: State, a: string)
    requires a != "" && Trimmed(a) && s.worker == InRun(0) && !Used(s, a) && s.approvals == map[]
    requires t == s.(worker := Asking(0, a), approvals := map[a := ASKED])
    ensures Leads(s, t)
  {
    LeadsNowhere(s);
    LeadsStep(s, s, WorkerAsk(a, ASKED));
    assert Do(s, WorkerAsk(a, ASKED)) == t;
  }

  lemma StoreFirst(s: State, cap: nat, a: string)
    requires s == Scene(cap, NEW_TASK.(status := Running), [], Ended(0, Paused(a)), map[a := ASKED], [])
    ensures Leads(s, Scene(cap, Task(Pending, a, "", false, ""), [], Idle, map[a := ASKED], []))
  {
    LeadsNowhere(s);
    LeadsStep(s, s, WorkerStore);
    assert Do(s, WorkerStore) == Scene(cap, Task(Pending, a, "", false, ""), [], Idle, map[a := ASKED], []);
  }

  lemma ResumeFirst(s: State, cap: nat, a: string) returns (t: State)
    requires cap > 0 && a != "" && Trimmed(a)
    requires s == Scene(cap, Task(Pending, a, "", false, ""), [], Idle, map[a := ASKED], [])
    ensures Leads(s, t) && Drainable(t) && t.q.line == [0] && t.accepted == [a]
    ensures 0 in t.q.tasks && !t.q.tasks[0].cancelled
  {
    TrimIdle(a);
    var u := Granted(s, a);
    t := AcceptFirst(u, a);
    LeadsOn(s, u, t);
  }

  lemma AcceptFirst(s: State, a: string) returns (t: State)
    requires a != "" && Trimmed(a) && s.q.line == [] && Drainable(s) && Approved(s, a) && s.accepted == []
    requires s.q.tasks == map[0 := Task(Pending, a, "", false, "")]
    ensures Leads(s, t) && Drainable(t) && t.q.line == [0] && t.accepted == [a]
    ensures 0 in t.q.tasks && !t.q.tasks[0].cancelled
  {
    TrimIdle(a);
    TrimIdle("");
    var v := Do(s, CheckResume(a));
    LeadsNowhere(s);
    LeadsStep(s, s, CheckResume(a));
    LeadsStep(s, v, EnqueueResume(a, 0));
    t := Do(v, EnqueueResume(a, 0));
    assert t.q.tasks[0].resume == a;
    assert Resumable(t, 0);
  }

  lemma RunAgain(s: State) returns (t: State)
    requires Drainable(s) && s.q.line == [0] && 0 in s.q.tasks && !s.q.tasks[0].cancelled
    ensures Leads(s, t) && t.worker == InRun(0) && t.accepted == s.accepted
  {
    assert Resumable(s, s.q.line[0]);
    var u := Begun(s);
    var resume := u.worker.resume;
    var now := if resume in u.approvals then u.approvals[resume].expiresAt else 0;
    Take(s);
    LeadsStep(s, u, WorkerRun(now, false));
    t := Do(u, WorkerRun(now, false));
  }

  /** From every start a run of fresh steps comes to a point where one answer that names the
      approval again lets a run of fresh steps accept it twice. */
  lemma NamedApprovalIsAcceptedTwice(s: State, a: string) returns (t: State, u: State)
    requires Initial(s) && a != "" && Trimmed(a)
    ensures Leads(s, t) && t.worker == InRun(0) && Enabled(t, WorkerName(a))
    ensures Leads(Do(t, WorkerName(a)), u) && Twice(u.accepted, a)
  {
    var s0 := Scene(s.q.cap, NEW_TASK, [0], Idle, map[], []);
    var s1 := Scene(s.q.cap, NEW_TASK.(status := Running), [], InRun(0), map[], []);
    var s2 := Scene(s.q.cap, Task(Pending, a, "", false, ""), [], Idle, map[a := ASKED], []);
    FirstTask(s);
    FirstRun(s0, s.q.cap);
    PauseFirst(s1, s.q.cap, a);
    var s3 := ResumeFirst(s2, s.q.cap, a);
    t := RunAgain(s3);
    LeadsOn(s, s0, s1);
    LeadsOn(s, s1, s2);
    LeadsOn(s, s2, s3);
    LeadsOn(s, s3, t);
    InitialIsGood(s);
    LeadsKeepInv(s, t);
    assert a in t.accepted;
    u := DoublingCanHappen(t, 0, a);
  }
}
