/** Submit, approve, deny, resume and the single worker, interleaved (cmd/mistermorph/daemoncmd/serve.go). */
module DaemonProtocol {
  import opened Text
  import opened TaskStore
  import A = ApprovalStore

  /** How a run came back to the worker. NoContext is Resume's answer for an approval that
      is not approved: a pending final without a run context, which the worker cannot store. */
  datatype Outcome =
    | Paused(approval: string)
    | Finished
    | Errored(deadlineText: bool)
    | NoContext

  datatype Worker =
    | Idle
    | Took(id: TaskId)
    | Read(id: TaskId, resume: string)
    | Marked(id: TaskId, resume: string)
    | Started(id: TaskId, resume: string)
    | InRun(id: TaskId)
    | Asking(id: TaskId, approval: string)
    | Ended(id: TaskId, outcome: Outcome)
    | Closing(id: TaskId)

  /** The queue, the worker, and the approvals as the atomic table that ApprovalStore shows the
      locked file to be. */
  datatype State = State(
    q: Queue,
    worker: Worker,
    approvals: A.Records,
    submitting: set<TaskId>,      // inserted, not sent yet
    undoing: set<TaskId>,         // found the queue full, not deleted yet
    checked: multiset<string>,    // resume handlers that saw their approval approved
    denying: multiset<string>,    // deny handlers past ResolveApproval
    accepted: seq<string>,        // history: approvals accepted for resume
    denied: set<TaskId>)          // history: tasks a deny handler failed

  datatype Step =
    | SubmitInsert(id: TaskId)
    | SubmitSend(id: TaskId)
    | SubmitFull(id: TaskId)
    | SubmitDelete(id: TaskId)
    | Approve(a: string, op: A.Op)
    | Deny(a: string, op: A.Op)
    | DenyFail(a: string, id: TaskId)
    | DenyMiss(a: string)
    | CheckResume(a: string)
    | EnqueueResume(a: string, id: TaskId)
    | RejectResume(a: string)
    | ContextDone(id: TaskId)
    | WorkerNext
    | WorkerRead
    | WorkerMark
    | WorkerClear
    | WorkerRun(now: int, broken: bool)
    | WorkerAsk(a: string, rec: A.Record)
    | WorkerPause
    | WorkerName(a: string)
    | WorkerReturn(outcome: Outcome)
    | WorkerStore
    | WorkerCancel

  predicate Terminal(st: Status) {
    st == Done || st == Failed || st == Canceled
  }

  predicate Holds(s: State, id: TaskId) {
    !s.worker.Idle? && s.worker.id == id
  }

  predicate Enabled(s: State, step: Step) {
    var w := s.worker;
    match step
    case SubmitInsert(id) => id !in s.q.tasks
    case SubmitSend(id) => id in s.submitting && !Full(s.q)
    case SubmitFull(id) => id in s.submitting && Full(s.q)
    case SubmitDelete(id) => id in s.undoing
    case Approve(a, op) => op.Resolve? && op.id == a && op.verdict == A.Approved
    case Deny(a, op) => op.Resolve? && op.id == a && op.verdict == A.Denied
    case DenyFail(a, id) => a in s.denying && Waits(s.q, a, id)
    case DenyMiss(a) => a in s.denying && forall id :: id in s.q.tasks ==> !Waits(s.q, a, id)
    case CheckResume(a) => a != "" && Trimmed(a) && a in s.approvals && s.approvals[a].status == A.Approved
    case EnqueueResume(a, id) => a in s.checked && Accepts(s.q, a, id)
    case RejectResume(a) => a in s.checked
    case ContextDone(id) => id in s.q.tasks
    case WorkerNext => w.Idle? && s.q.line != []
    case WorkerRead => w.Took? && w.id in s.q.tasks
    case WorkerMark => w.Read? && w.id in s.q.tasks
    case WorkerClear => w.Marked? && w.id in s.q.tasks
    case WorkerRun(_, _) => w.Started? && w.id in s.q.tasks
    case WorkerAsk(a, rec) => w.InRun? && a != "" && Trimmed(a) && rec.status == A.Pending
    case WorkerPause => w.Asking?
    case WorkerName(a) => w.InRun? && a != "" && Trimmed(a)
    case WorkerReturn(out) => w.InRun? && (out.Finished? || out.Errored?)
    case WorkerStore => w.Ended? && !w.outcome.NoContext? && w.id in s.q.tasks
    case WorkerCancel => w.Closing? && w.id in s.q.tasks
  }

  /** What Resume does with the approval before the run loop starts. */
  function Resumed(s: State, id: TaskId, a: string, now: int, broken: bool): Worker
    requires id in s.q.tasks
  {
    if a !in s.approvals then Ended(id, Errored(false))
    else if now > s.approvals[a].expiresAt then Ended(id, Errored(false))
    else if s.approvals[a].status != A.Approved then Ended(id, NoContext)
    else if broken then Ended(id, Errored(false))          // no resume state, bad version or hash
    else if s.q.tasks[id].cancelled then Ended(id, Errored(false))   // first check of the loop
    else InRun(id)
  }

  /** The status the worker stores when a run ends. */
  function StoredTask(t: Task, out: Outcome): Task
    requires !out.NoContext?
  {
    match out
    case Paused(a) => t.(status := Pending, approval := a)
    case Finished => t.(status := Done)
    case Errored(deadlineText) => t.(status := if t.cancelled || deadlineText then Canceled else Failed)
  }

  function SetTask(s: State, id: TaskId, t: Task): State {
    s.(q := Change(s.q, id, t))
  }

  function Do(s: State, step: Step): State
    requires Enabled(s, step)
  {
    var w := s.worker;
    match step
    case SubmitInsert(id) => s.(q := Insert(s.q, id), submitting := s.submitting + {id})
    case SubmitSend(id) => s.(q := Send(s.q, id), submitting := s.submitting - {id})
    case SubmitFull(id) => s.(submitting := s.submitting - {id}, undoing := s.undoing + {id})
    case SubmitDelete(id) => s.(q := Drop(s.q, id), undoing := s.undoing - {id})
    case Approve(_, op) => s.(approvals := A.Apply(s.approvals, op))
    case Deny(a, op) => s.(approvals := A.Apply(s.approvals, op), denying := s.denying + multiset{a})
    case DenyFail(a, id) =>
      s.(q := FailedBy(s.q, id, "approval denied"), denying := s.denying - multiset{a},
         denied := s.denied + {id})
    case DenyMiss(a) => s.(denying := s.denying - multiset{a})
    case CheckResume(a) => s.(checked := s.checked + multiset{a})
    case EnqueueResume(a, id) =>
      s.(q := Accepted(s.q, id, a), checked := s.checked - multiset{a}, accepted := s.accepted + [a])
    case RejectResume(a) => s.(checked := s.checked - multiset{a})
    case ContextDone(id) => SetTask(s, id, s.q.tasks[id].(cancelled := true))
    case WorkerNext => s.(q := s.q.(line := s.q.line[1..]), worker := Took(s.q.line[0]))
    case WorkerRead => s.(worker := Read(w.id, Trim(s.q.tasks[w.id].resume)))
    case WorkerMark => SetTask(s, w.id, s.q.tasks[w.id].(status := Running)).(worker := Marked(w.id, w.resume))
    case WorkerClear =>
      (if w.resume == "" then s else SetTask(s, w.id, s.q.tasks[w.id].(resume := ""))).(worker := Started(w.id, w.resume))
    case WorkerRun(now, broken) =>
      s.(worker := if w.resume != "" then Resumed(s, w.id, w.resume, now, broken)
                   else if broken || s.q.tasks[w.id].cancelled then Ended(w.id, Errored(false))
                   else InRun(w.id))
    case WorkerAsk(a, rec) =>
      s.(approvals := A.Apply(s.approvals, A.Create(a, rec)), worker := Asking(w.id, a))
    case WorkerPause => s.(worker := Ended(w.id, Paused(w.approval)))
    case WorkerName(a) => s.(worker := Ended(w.id, Paused(a)))
    case WorkerReturn(out) => s.(worker := Ended(w.id, out))
    case WorkerStore =>
      SetTask(s, w.id, StoredTask(s.q.tasks[w.id], w.outcome))
      .(worker := if w.outcome.Paused? then Idle else Closing(w.id))
    case WorkerCancel => SetTask(s, w.id, s.q.tasks[w.id].(cancelled := true)).(worker := Idle)
  }

  // ---- the fresh-id assumption ----

  predicate Used(s: State, a: string) {
    a in s.approvals || a in s.accepted || exists id :: id in s.q.tasks && s.q.tasks[id].approval == a
  }

  /** Approval ids are random, and a run that ends with a final answer shaped like a pause
      does not name an approval that is already known. */
  predicate FreshId(s: State, step: Step) {
    match step
    case WorkerAsk(a, _) => !Used(s, a)
    case WorkerName(a) => !Used(s, a)
    case _ => true
  }

  // ---- the invariant ----

  /** The worker has the task but has not marked it running. */
  predicate HeldEarly(s: State, id: TaskId) {
    (s.worker.Took? || s.worker.Read?) && s.worker.id == id
  }

  predicate HeldRunning(s: State, id: TaskId) {
    Holds(s, id) && !HeldEarly(s, id) && !s.worker.Closing?
  }

  predicate Approved(s: State, a: string) {
    a != "" && Trimmed(a) && a in s.approvals && s.approvals[a].status == A.Approved
  }

  /** Where a task can be, by its status and the approval it was re-queued for. */
  predicate TaskInv(s: State, id: TaskId)
    requires id in s.q.tasks
  {
    var t := s.q.tasks[id];
    && Trimmed(t.approval)
    && (t.status == Queued <==>
          t.resume == "" && (id in s.q.line || id in s.submitting || id in s.undoing || HeldEarly(s, id)))
    && (t.status == Queued ==> t.approval == "")
    && (t.status == Running <==> HeldRunning(s, id))
    && (t.status == Pending && t.approval in s.accepted ==> t.resume != "")
    && (t.resume != "" ==>
          && t.approval == t.resume && Approved(s, t.resume) && t.resume in s.accepted
          && (id in s.q.line || HeldEarly(s, id) || s.worker == Marked(id, t.resume)))
    && (id in s.denied ==> t.cancelled && (t.status == Failed || t.status == Running || t.status == Canceled))
  }

  predicate WorkerInv(s: State) {
    var w := s.worker;
    && (!w.Idle? ==> w.id in s.q.tasks && w.id !in s.q.line && w.id !in s.submitting && w.id !in s.undoing)
    && match w
       case Read(id, r) => r == s.q.tasks[id].resume
       case Marked(id, r) => r == s.q.tasks[id].resume
       case Started(id, r) => r != "" ==> Approved(s, r)
       case InRun(id) => id !in s.denied
       case Asking(id, a) => id !in s.denied && Unclaimed(s, a)
       case Ended(id, out) =>
         && !out.NoContext?
         && (out.Paused? ==> Unclaimed(s, out.approval))
         && (id in s.denied ==> out.Errored?)
       case Closing(id) => Terminal(s.q.tasks[id].status)
       case _ => true
  }

  /** An approval no task waits for and none was resumed for. */
  predicate Unclaimed(s: State, a: string) {
    a != "" && Trimmed(a) && a !in s.accepted
    && forall id :: id in s.q.tasks ==> s.q.tasks[id].approval != a
  }

  predicate NoDup<T(==)>(xs: seq<T>) {
    forall i, j :: 0 <= i < j < |xs| ==> xs[i] != xs[j]
  }

  predicate LineInv(s: State) {
    && s.q.cap > 0 && NoDup(s.q.line)
    && (forall k :: 0 <= k < |s.q.line| ==> s.q.line[k] in s.q.tasks)
    && s.submitting <= s.q.tasks.Keys && s.undoing <= s.q.tasks.Keys
    && s.submitting !! s.undoing
    && (forall k :: 0 <= k < |s.q.line| ==> s.q.line[k] !in s.submitting && s.q.line[k] !in s.undoing)
  }

  /** Two tasks never wait for the same approval. */
  predicate Apart(s: State, i: TaskId, j: TaskId) {
    i in s.q.tasks && j in s.q.tasks && i != j && s.q.tasks[i].approval != "" ==>
      s.q.tasks[i].approval != s.q.tasks[j].approval
  }

  ghost predicate ApprovalInv(s: State) {
    && NoDup(s.accepted)
    && (forall a :: a in s.accepted ==> Approved(s, a))
    && (forall a :: a in s.checked ==> Approved(s, a))
    && (forall i, j {:trigger Apart(s, i, j)} :: Apart(s, i, j))
    && s.denied <= s.q.tasks.Keys
  }

  ghost predicate Inv(s: State) {
    && LineInv(s) && WorkerInv(s) && ApprovalInv(s)
    && forall id {:trigger TaskInv(s, id)} :: id in s.q.tasks ==> TaskInv(s, id)
  }

  predicate Initial(s: State) {
    s.q.cap > 0 && s == State(Queue(map[], [], s.q.cap), Idle, map[], {}, {}, multiset{}, multiset{}, [], {})
  }

  lemma InitialIsGood(s: State)
    requires Initial(s)
    ensures Inv(s)
  {
  }

  lemma TrimmedApproval(s: State, a: string, id: TaskId)
    requires Inv(s) && Waits(s.q, a, id)
    ensures s.q.tasks[id].approval == a
  {
    assert TaskInv(s, id);
    TrimIdle(s.q.tasks[id].approval);
  }

  lemma SubmitInsertKeepsInv(s: State, id0: TaskId)
    requires Inv(s) && Enabled(s, SubmitInsert(id0))
    ensures Inv(Do(s, SubmitInsert(id0)))
  {
    var s' := Do(s, SubmitInsert(id0));
    forall id | id in s'.q.tasks ensures TaskInv(s', id) {
      assert id in s.q.tasks ==> TaskInv(s, id);
    }
    forall i, j ensures Apart(s', i, j) { assert Apart(s, i, j); }
  }

  lemma SubmitSendKeepsInv(s: State, id0: TaskId)
    requires Inv(s) && Enabled(s, SubmitSend(id0))
    ensures Inv(Do(s, SubmitSend(id0)))
  {
    var s' := Do(s, SubmitSend(id0));
    assert TaskInv(s, id0);
    forall id | id in s'.q.tasks ensures TaskInv(s', id) {
      assert id in s.q.tasks ==> TaskInv(s, id);
    }
    forall i, j ensures Apart(s', i, j) { assert Apart(s, i, j); }
  }

  lemma SubmitFullKeepsInv(s: State, id0: TaskId)
    requires Inv(s) && Enabled(s, SubmitFull(id0))
    ensures Inv(Do(s, SubmitFull(id0)))
  {
    var s' := Do(s, SubmitFull(id0));
    assert TaskInv(s, id0);
    forall id | id in s'.q.tasks ensures TaskInv(s', id) {
      assert id in s.q.tasks ==> TaskInv(s, id);
    }
    forall i, j ensures Apart(s', i, j) { assert Apart(s, i, j); }
  }

  lemma SubmitDeleteKeepsInv(s: State, id0: TaskId)
    requires Inv(s) && Enabled(s, SubmitDelete(id0))
    ensures Inv(Do(s, SubmitDelete(id0)))
  {
    var s' := Do(s, SubmitDelete(id0));
    assert TaskInv(s, id0);
    forall id | id in s'.q.tasks ensures TaskInv(s', id) {
      assert id in s.q.tasks ==> TaskInv(s, id);
    }
    forall i, j ensures Apart(s', i, j) { assert Apart(s, i, j); }
  }

  /** Resolving and creating approvals never takes an approval back. */
  lemma ApprovedStays(s: State, op: A.Op, a: string)
    requires Approved(s, a)
    requires op.Create? ==> op.id !in s.approvals
    ensures a in A.Apply(s.approvals, op) && A.Apply(s.approvals, op)[a] == s.approvals[a]
  {
  }

  lemma ResolveKeepsInv(s: State, step: Step)
    requires Inv(s) && Enabled(s, step) && (step.Approve? || step.Deny?)
    ensures Inv(Do(s, step))
  {
    var s' := Do(s, step);
    forall a | Approved(s, a) ensures Approved(s', a) {
      ApprovedStays(s, step.op, a);
    }
    forall id | id in s'.q.tasks ensures TaskInv(s', id) {
      assert TaskInv(s, id);
    }
    forall i, j ensures Apart(s', i, j) { assert Apart(s, i, j); }
  }

  lemma DenyFailKeepsInv(s: State, a: string, id0: TaskId)
    requires Inv(s) && Enabled(s, DenyFail(a, id0))
    ensures Inv(Do(s, DenyFail(a, id0)))
  {
    var s' := Do(s, DenyFail(a, id0));
    FailKeepsInv(s, s', id0);
  }

  /** Failing a pending task, wherever it is. */
  lemma FailKeepsInv(s: State, s': State, id0: TaskId)
    requires Inv(s) && id0 in s.q.tasks && s.q.tasks[id0].status == Pending
    requires exists error :: s'.q == FailedBy(s.q, id0, error)
    requires s' == s.(q := s'.q, denying := s'.denying, denied := s.denied + {id0})
    ensures Inv(s')
  {
    assert TaskInv(s, id0);
    forall id | id in s'.q.tasks ensures TaskInv(s', id) {
      assert TaskInv(s, id);
    }
    forall i, j ensures Apart(s', i, j) { assert Apart(s, i, j); }
  }

  lemma DenyMissKeepsInv(s: State, a: string)
    requires Inv(s) && Enabled(s, DenyMiss(a))
    ensures Inv(Do(s, DenyMiss(a)))
  {
    var s' := Do(s, DenyMiss(a));
    forall id | id in s'.q.tasks ensures TaskInv(s', id) {
      assert id in s.q.tasks ==> TaskInv(s, id);
    }
    forall i, j ensures Apart(s', i, j) { assert Apart(s, i, j); }
  }

  lemma CheckKeepsInv(s: State, step: Step)
    requires Inv(s) && Enabled(s, step) && (step.CheckResume? || step.RejectResume?)
    ensures Inv(Do(s, step))
  {
    var s' := Do(s, step);
    forall id | id in s'.q.tasks ensures TaskInv(s', id) {
      assert TaskInv(s, id);
    }
    forall i, j ensures Apart(s', i, j) { assert Apart(s, i, j); }
  }

  lemma EnqueueResumeKeepsInv(s: State, a: string, id0: TaskId)
    requires Inv(s) && Enabled(s, EnqueueResume(a, id0))
    ensures Inv(Do(s, EnqueueResume(a, id0)))
    ensures a !in s.accepted
  {
    assert TaskInv(s, id0);
    TrimmedApproval(s, a, id0);
    NotQueuedTwice(s, id0);
    AcceptKeepsInv(s, a, id0);
  }

  lemma NotQueuedTwice(s: State, id: TaskId)
    requires Inv(s) && id in s.q.tasks && Trim(s.q.tasks[id].resume) == ""
    ensures s.q.tasks[id].resume == ""
  {
    assert TaskInv(s, id);
    if Trimmed(s.q.tasks[id].resume) {
      TrimIdle(s.q.tasks[id].resume);
    }
  }

  predicate CanAccept(s: State, a: string, id0: TaskId) {
    && Approved(s, a)
    && id0 in s.q.tasks && s.q.tasks[id0].status == Pending
    && s.q.tasks[id0].approval == a && s.q.tasks[id0].resume == ""
  }

  function Accept(s: State, a: string, id0: TaskId): State
    requires CanAccept(s, a, id0)
  {
    s.(q := Accepted(s.q, id0, a), checked := s.checked - multiset{a}, accepted := s.accepted + [a])
  }

  lemma AcceptTaskInv(s: State, a: string, id0: TaskId, id: TaskId)
    requires Inv(s) && CanAccept(s, a, id0) && id in s.q.tasks
    ensures TaskInv(Accept(s, a, id0), id)
  {
    assert TaskInv(s, id0) && TaskInv(s, id) && Apart(s, id0, id);
    var s' := Accept(s, a, id0);
    assert a in s'.accepted && forall x :: x in s'.accepted ==> x == a || x in s.accepted;
    assert forall x :: x in s'.q.line ==> x == id0 || x in s.q.line;
    assert forall x :: x in s.q.line ==> x in s'.q.line;
    assert s'.q.line[|s.q.line|] == id0;
  }

  lemma AcceptLineInv(s: State, a: string, id0: TaskId)
    requires Inv(s) && CanAccept(s, a, id0)
    ensures LineInv(Accept(s, a, id0))
    ensures !Holds(s, id0)
  {
    assert TaskInv(s, id0);
  }

  /** Sending a pending task for the approval it waits for. */
  lemma AcceptKeepsInv(s: State, a: string, id0: TaskId)
    requires Inv(s) && CanAccept(s, a, id0)
    ensures a !in s.accepted
    ensures Inv(Accept(s, a, id0))
  {
    var s' := Accept(s, a, id0);
    assert TaskInv(s, id0);
    AcceptLineInv(s, a, id0);
    forall id | id in s'.q.tasks ensures TaskInv(s', id) { AcceptTaskInv(s, a, id0, id); }
    forall i, j ensures Apart(s', i, j) { assert Apart(s, i, j); }
  }

  lemma WorkerNextKeepsInv(s: State)
    requires Inv(s) && Enabled(s, WorkerNext)
    ensures Inv(Do(s, WorkerNext))
  {
    var s' := Do(s, WorkerNext);
    assert s.q.line == [s.q.line[0]] + s'.q.line;
    assert TaskInv(s, s.q.line[0]);
    forall id | id in s'.q.tasks ensures TaskInv(s', id) {
      assert id in s.q.tasks ==> TaskInv(s, id);
    }
    forall i, j ensures Apart(s', i, j) { assert Apart(s, i, j); }
  }

  lemma WorkerReadKeepsInv(s: State)
    requires Inv(s) && Enabled(s, WorkerRead)
    ensures Inv(Do(s, WorkerRead))
  {
    var s' := Do(s, WorkerRead);
    assert TaskInv(s, s.worker.id);
    TrimIdle(s.q.tasks[s.worker.id].resume);
    forall id | id in s'.q.tasks ensures TaskInv(s', id) {
      assert id in s.q.tasks ==> TaskInv(s, id);
    }
    forall i, j ensures Apart(s', i, j) { assert Apart(s, i, j); }
  }

  lemma WorkerMarkKeepsInv(s: State)
    requires Inv(s) && Enabled(s, WorkerMark)
    ensures Inv(Do(s, WorkerMark))
  {
    var s' := Do(s, WorkerMark);
    assert TaskInv(s, s.worker.id);
    forall id | id in s'.q.tasks ensures TaskInv(s', id) {
      assert id in s.q.tasks ==> TaskInv(s, id);
    }
    forall i, j ensures Apart(s', i, j) { assert Apart(s, i, j); }
  }

  lemma WorkerClearKeepsInv(s: State)
    requires Inv(s) && Enabled(s, WorkerClear)
    ensures Inv(Do(s, WorkerClear))
  {
    var s' := Do(s, WorkerClear);
    assert TaskInv(s, s.worker.id);
    forall id | id in s'.q.tasks ensures TaskInv(s', id) {
      assert id in s.q.tasks ==> TaskInv(s, id);
    }
    forall i, j ensures Apart(s', i, j) { assert Apart(s, i, j); }
  }

  lemma WorkerRunKeepsInv(s: State, now: int, broken: bool)
    requires Inv(s) && Enabled(s, WorkerRun(now, broken))
    ensures Inv(Do(s, WorkerRun(now, broken)))
  {
    var s' := Do(s, WorkerRun(now, broken));
    assert TaskInv(s, s.worker.id);
    forall id | id in s'.q.tasks ensures TaskInv(s', id) {
      assert TaskInv(s, id);
    }
    forall i, j ensures Apart(s', i, j) { assert Apart(s, i, j); }
  }

  lemma WorkerAskKeepsInv(s: State, a0: string, rec: A.Record)
    requires Inv(s) && Enabled(s, WorkerAsk(a0, rec)) && FreshId(s, WorkerAsk(a0, rec))
    ensures Inv(Do(s, WorkerAsk(a0, rec)))
  {
    var s' := Do(s, WorkerAsk(a0, rec));
    assert TaskInv(s, s.worker.id);
    forall a | Approved(s, a) ensures Approved(s', a) {
      ApprovedStays(s, A.Create(a0, rec), a);
    }
    forall id | id in s'.q.tasks ensures TaskInv(s', id) {
      assert TaskInv(s, id);
    }
    forall i, j ensures Apart(s', i, j) { assert Apart(s, i, j); }
  }

  lemma WorkerEndsKeepsInv(s: State, step: Step)
    requires Inv(s) && Enabled(s, step) && FreshId(s, step)
    requires step.WorkerPause? || step.WorkerName? || step.WorkerReturn?
    ensures Inv(Do(s, step))
  {
    var s' := Do(s, step);
    assert TaskInv(s, s.worker.id);
    forall id | id in s'.q.tasks ensures TaskInv(s', id) {
      assert TaskInv(s, id);
    }
    forall i, j ensures Apart(s', i, j) { assert Apart(s, i, j); }
  }

  lemma WorkerStoreKeepsInv(s: State)
    requires Inv(s) && Enabled(s, WorkerStore)
    ensures Inv(Do(s, WorkerStore))
  {
    var s' := Do(s, WorkerStore);
    assert TaskInv(s, s.worker.id);
    forall id | id in s'.q.tasks ensures TaskInv(s', id) {
      assert id in s.q.tasks ==> TaskInv(s, id);
    }
    forall i, j ensures Apart(s', i, j) { assert Apart(s, i, j); }
  }

  lemma WorkerCancelKeepsInv(s: State)
    requires Inv(s) && Enabled(s, WorkerCancel)
    ensures Inv(Do(s, WorkerCancel))
  {
    var s' := Do(s, WorkerCancel);
    assert TaskInv(s, s.worker.id);
    forall id | id in s'.q.tasks ensures TaskInv(s', id) {
      assert id in s.q.tasks ==> TaskInv(s, id);
    }
    forall i, j ensures Apart(s', i, j) { assert Apart(s, i, j); }
  }

  lemma ContextDoneKeepsInv(s: State, id0: TaskId)
    requires Inv(s) && Enabled(s, ContextDone(id0))
    ensures Inv(Do(s, ContextDone(id0)))
  {
    var s' := Do(s, ContextDone(id0));
    forall id | id in s'.q.tasks ensures TaskInv(s', id) {
      assert id in s.q.tasks ==> TaskInv(s, id);
    }
    forall i, j ensures Apart(s', i, j) { assert Apart(s, i, j); }
  }

  lemma InvKept(s: State, step: Step)
    requires Inv(s) && Enabled(s, step) && FreshId(s, step)
    ensures Inv(Do(s, step))
  {
    match step
    case SubmitInsert(id) => SubmitInsertKeepsInv(s, id);
    case SubmitSend(id) => SubmitSendKeepsInv(s, id);
    case SubmitFull(id) => SubmitFullKeepsInv(s, id);
    case SubmitDelete(id) => SubmitDeleteKeepsInv(s, id);
    case Approve(_, _) => ResolveKeepsInv(s, step);
    case Deny(_, _) => ResolveKeepsInv(s, step);
    case DenyFail(a, id) => DenyFailKeepsInv(s, a, id);
    case DenyMiss(a) => DenyMissKeepsInv(s, a);
    case CheckResume(_) => CheckKeepsInv(s, step);
    case EnqueueResume(a, id) => EnqueueResumeKeepsInv(s, a, id);
    case RejectResume(_) => CheckKeepsInv(s, step);
    case WorkerNext => WorkerNextKeepsInv(s);
    case WorkerRead => WorkerReadKeepsInv(s);
    case WorkerMark => WorkerMarkKeepsInv(s);
    case WorkerClear => WorkerClearKeepsInv(s);
    case WorkerRun(now, broken) => WorkerRunKeepsInv(s, now, broken);
    case WorkerAsk(a, rec) => WorkerAskKeepsInv(s, a, rec);
    case WorkerPause => WorkerEndsKeepsInv(s, step);
    case WorkerName(_) => WorkerEndsKeepsInv(s, step);
    case WorkerReturn(_) => WorkerEndsKeepsInv(s, step);
    case WorkerStore => WorkerStoreKeepsInv(s);
    case WorkerCancel => WorkerCancelKeepsInv(s);
    case ContextDone(id) => ContextDoneKeepsInv(s, id);
  }

  // ---- whole runs of the daemon ----

  predicate Valid(s: State, steps: seq<Step>)
    decreases |steps|
  {
    steps == [] ||
    (Enabled(s, steps[0]) && FreshId(s, steps[0]) && Valid(Do(s, steps[0]), steps[1..]))
  }

  function After(s: State, steps: seq<Step>): State
    requires Valid(s, steps)
    decreases |steps|
  {
    if steps == [] then s else After(Do(s, steps[0]), steps[1..])
  }

  lemma {:induction false} InvAlways(s: State, steps: seq<Step>)
    requires Inv(s) && Valid(s, steps)
    ensures Inv(After(s, steps))
    decreases |steps|
  {
    if steps != [] {
      InvKept(s, steps[0]);
      InvAlways(Do(s, steps[0]), steps[1..]);
    }
  }

  // ---- each approval is accepted for resume at most once ----

  function AcceptedBy(step: Step): seq<string> {
    if step.EnqueueResume? then [step.a] else []
  }

  function AcceptedIn(steps: seq<Step>): seq<string> {
    if steps == [] then []
    else AcceptedBy(steps[0]) + AcceptedIn(steps[1..])
  }

  lemma StepHistory(s: State, step: Step)
    requires Enabled(s, step)
    ensures Do(s, step).accepted == s.accepted + AcceptedBy(step)
  {
  }

  lemma {:induction false} AcceptedIsHistory(s: State, steps: seq<Step>)
    requires Valid(s, steps)
    ensures After(s, steps).accepted == s.accepted + AcceptedIn(steps)
    decreases |steps|
  {
    if steps != [] {
      var mid, tail := Do(s, steps[0]), steps[1..];
      StepHistory(s, steps[0]);
      AcceptedIsHistory(mid, tail);
      Regroup(s.accepted, AcceptedBy(steps[0]), AcceptedIn(tail));
    }
  }

  lemma Regroup(a: seq<string>, b: seq<string>, c: seq<string>)
    ensures (a + b) + c == a + (b + c)
  {
  }

  /** Main result: whatever the interleaving of submitters, approvers, deniers, resumers and
      the worker, no approval id is accepted for resume twice. */
  lemma AcceptedAtMostOnce(s: State, steps: seq<Step>)
    requires Initial(s) && Valid(s, steps)
    ensures NoDup(AcceptedIn(steps))
  {
    InitialIsGood(s);
    InvAlways(s, steps);
    AcceptedIsHistory(s, steps);
    assert After(s, steps).accepted == AcceptedIn(steps);
  }

  /** Main result: when the worker resumes a task its approval is approved, so the pending
      answer that carries no run context never reaches the worker. */
  lemma ResumeAlwaysHasContext(s: State, steps: seq<Step>)
    requires Initial(s) && Valid(s, steps)
    ensures var w := After(s, steps).worker;
      && (w.Started? && w.resume != "" ==> Approved(After(s, steps), w.resume))
      && !(w.Ended? && w.outcome.NoContext?)
  {
    InitialIsGood(s);
    InvAlways(s, steps);
  }

  // ---- denied tasks never run ----

  lemma {:induction false} DeniedStays(s: State, steps: seq<Step>)
    requires Valid(s, steps)
    ensures s.denied <= After(s, steps).denied
    decreases |steps|
  {
    if steps != [] {
      DeniedStays(Do(s, steps[0]), steps[1..]);
    }
  }

  /** Main result: once a deny has failed a waiting task, no later run of that task reaches
      the loop that executes tools, even if the task was already queued for resume, and the
      task never becomes pending or done. */
  lemma DeniedNeverRuns(s: State, steps: seq<Step>, id: TaskId)
    requires Inv(s) && Valid(s, steps) && id in s.denied
    ensures var s' := After(s, steps);
      && s'.worker != InRun(id)
      && (forall a :: s'.worker != Asking(id, a))
      && id in s'.q.tasks && s'.q.tasks[id].status in {Failed, Running, Canceled}
  {
    InvAlways(s, steps);
    DeniedStays(s, steps);
    assert TaskInv(After(s, steps), id);
  }

  /** A denied task that is still taken by the worker goes back through running and ends
      canceled, which overwrites the failed status the deny reported. */
  lemma DeniedInQueueEndsCanceled(s: State, id: TaskId, resume: string, now: int, broken: bool)
    requires Inv(s) && id in s.denied && s.worker == Started(id, resume)
    ensures s.q.tasks[id].status == Running
    ensures var s1 := Do(s, WorkerRun(now, broken));
      && s1.worker == Ended(id, Errored(false))
      && Do(s1, WorkerStore).q.tasks[id].status == Canceled
  {
    assert TaskInv(s, id);
  }

  // ---- the queue ----

  /** Main result: in every reachable state the line holds no task twice, a queued task is in
      exactly one of four places (waiting in line, held by the worker, or with the submitter
      that is still sending or undoing it), and at most one task is running. */
  lemma QueueInvariant(s: State, steps: seq<Step>)
    requires Initial(s) && Valid(s, steps)
    ensures var s' := After(s, steps);
      && NoDup(s'.q.line)
      && (forall id :: id in s'.q.tasks && s'.q.tasks[id].status == Queued ==> OnePlace(s', id))
      && (forall i, j :: IsRunning(s', i) && IsRunning(s', j) ==> i == j)
  {
    InitialIsGood(s);
    InvAlways(s, steps);
    var s' := After(s, steps);
    forall id | id in s'.q.tasks
      ensures s'.q.tasks[id].status == Queued ==> OnePlace(s', id)
      ensures s'.q.tasks[id].status == Running ==> Holds(s', id)
    {
      assert TaskInv(s', id);
    }
  }

  predicate IsRunning(s: State, id: TaskId) {
    id in s.q.tasks && s.q.tasks[id].status == Running
  }

  predicate OnePlace(s: State, id: TaskId) {
    var line, sub, undo, held := id in s.q.line, id in s.submitting, id in s.undoing, HeldEarly(s, id);
    && (line || sub || undo || held)
    && !(line && sub) && !(line && undo) && !(line && held)
    && !(sub && undo) && !(sub && held) && !(undo && held)
  }

  /** Nobody is about to touch the task: it is over, not in line and not with the worker. */
  predicate Settled(s: State, id: TaskId) {
    id in s.q.tasks && Terminal(s.q.tasks[id].status) && id !in s.q.line && !Holds(s, id)
  }

  predicate WorkerStep(step: Step) {
    step.WorkerRun? || step.WorkerAsk? || step.WorkerPause? || step.WorkerName? || step.WorkerReturn?
    || step.WorkerRead? || step.WorkerMark? || step.WorkerClear? || step.WorkerStore? || step.WorkerCancel?
  }

  lemma SettledWorkerStep(s: State, step: Step, id: TaskId)
    requires Inv(s) && Enabled(s, step) && Settled(s, id) && WorkerStep(step)
    ensures Settled(Do(s, step), id)
    ensures Do(s, step).q.tasks[id].status == s.q.tasks[id].status
  {
    assert s.worker.id != id;
    if step.WorkerRun? {
      assert Do(s, step).q == s.q && Do(s, step).worker.id == s.worker.id;
    }
  }

  lemma SettledStep(s: State, step: Step, id: TaskId)
    requires Inv(s) && Enabled(s, step) && Settled(s, id)
    ensures Settled(Do(s, step), id)
    ensures Do(s, step).q.tasks[id].status == s.q.tasks[id].status
  {
    assert TaskInv(s, id);
    if WorkerStep(step) {
      SettledWorkerStep(s, step, id);
    } else if step.WorkerNext? {
      assert s.q.line[0] in s.q.line;
    }
  }

  /** Main result: a settled task keeps its status for good. */
  lemma {:induction false} SettledForever(s: State, steps: seq<Step>, id: TaskId)
    requires Inv(s) && Valid(s, steps) && Settled(s, id)
    ensures Settled(After(s, steps), id)
    ensures After(s, steps).q.tasks[id].status == s.q.tasks[id].status
    decreases |steps|
  {
    if steps != [] {
      SettledStep(s, steps[0], id);
      InvKept(s, steps[0]);
      SettledForever(Do(s, steps[0]), steps[1..], id);
    }
  }
}
