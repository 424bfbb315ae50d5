/** The daemon's in-memory task table and bounded work queue
    (cmd/mistermorph/daemoncmd/daemon_queue.go). */
module TaskStore {
  import opened Wrappers
  import opened Text

  datatype Status = Queued | Running | Pending | Done | Failed | Canceled

  /** The random 64-bit number whose hexadecimal print is the task id. */
  type TaskId = nat

  /** What the rest of the daemon can see of a task. `resume` is the approval the task was
      re-queued for; `cancelled` says its context has been cancelled or has timed out. */
  datatype Task = Task(status: Status, approval: string, resume: string, cancelled: bool, error: string)

  datatype Queue = Queue(tasks: map<TaskId, Task>, line: seq<TaskId>, cap: nat)

  const NEW_TASK := Task(Queued, "", "", false, "")

  /** The part of a task that Update hands to its callback. */
  datatype Info = Info(status: Status, approval: string, error: string)

  function InfoOf(t: Task): Info {
    Info(t.status, t.approval, t.error)
  }

  function WithInfo(t: Task, i: Info): Task {
    t.(status := i.status, approval := i.approval, error := i.error)
  }

  // ---- the operations as changes of the visible state ----

  predicate Full(q: Queue) {
    |q.line| >= q.cap
  }

  function Insert(q: Queue, id: TaskId): Queue {
    q.(tasks := q.tasks[id := NEW_TASK])
  }

  function Send(q: Queue, id: TaskId): Queue {
    q.(line := q.line + [id])
  }

  function Drop(q: Queue, id: TaskId): Queue {
    q.(tasks := q.tasks - {id})
  }

  function Change(q: Queue, id: TaskId, t: Task): Queue {
    q.(tasks := q.tasks[id := t])
  }

  /** A pending task that waits for approval `a`. */
  predicate Waits(q: Queue, a: string, id: TaskId) {
    id in q.tasks && Trim(q.tasks[id].approval) == a && q.tasks[id].status == Pending
  }

  predicate Accepts(q: Queue, a: string, id: TaskId) {
    a != "" && Waits(q, a, id) && Trim(q.tasks[id].resume) == "" && !Full(q)
  }

  function Accepted(q: Queue, id: TaskId, a: string): Queue
    requires id in q.tasks
  {
    Send(Change(q, id, q.tasks[id].(resume := a)), id)
  }

  function FailedBy(q: Queue, id: TaskId, error: string): Queue
    requires id in q.tasks
  {
    Change(q, id, q.tasks[id].(status := Failed, error := error, cancelled := true))
  }

  // ---- the store ----

  /** One task object, shared by the table and the channel; `now` is all of it that changes. */
  class QueuedTask {
    const id: TaskId
    var now: Task

    constructor (id: TaskId)
      ensures this.id == id && now == NEW_TASK
    {
      this.id := id;
      now := NEW_TASK;
    }
  }

  class TaskStore {
    var tasks: map<TaskId, QueuedTask>
    var queue: seq<QueuedTask>
    const cap: nat

    /** What the table and the channel hold, as values. */
    ghost var q: Queue

    ghost predicate Valid()
      reads this, tasks.Values
    {
      && cap > 0 && q.cap == cap
      && (forall id :: id in tasks <==> id in q.tasks)
      && (forall id :: id in tasks ==> Agrees(id) && Trimmed(q.tasks[id].resume))
      && |q.line| == |queue|
      && (forall k :: 0 <= k < |queue| ==> q.line[k] in tasks && tasks[q.line[k]] == queue[k])
    }

    ghost predicate Agrees(id: TaskId)
      requires id in tasks && id in q.tasks
      reads this, tasks[id]
    {
      var qt := tasks[id];
      qt.id == id && qt.now == q.tasks[id]
    }

    constructor (maxQueue: int)
      ensures Valid() && q == Queue(map[], [], if maxQueue <= 0 then 100 else maxQueue)
    {
      cap := if maxQueue <= 0 then 100 else maxQueue;
      tasks := map[];
      queue := [];
      q := Queue(map[], [], if maxQueue <= 0 then 100 else maxQueue);
    }

    /** The id is drawn at random; a clash with a live task is not considered. A full queue
        leaves no trace of the task. */
    method Enqueue(id: TaskId) returns (r: Result<TaskId>)
      requires Valid() && id !in tasks
      modifies this
      ensures Valid()
      ensures r.Ok? <==> !Full(old(q))
      ensures r.Ok? ==> r.value == id && q == Send(Insert(old(q), id), id)
      ensures r.Err? ==> q == old(q)
    {
      assert id !in q.line;
      var qt := InsertTask(id);
      var sent := TrySend(qt);
      if sent {
        return Ok(id);
      }
      Discard(qt);
      assert q.tasks == old(q).tasks;
      return Err("queue is full");
    }

    method InsertTask(id: TaskId) returns (qt: QueuedTask)
      requires Valid() && id !in tasks
      modifies this
      ensures Valid() && fresh(qt) && qt.id == id && tasks == old(tasks)[id := qt]
      ensures q == Insert(old(q), id)
    {
      qt := new QueuedTask(id);
      tasks := tasks[id := qt];
      q := Insert(q, id);
    }

    /** The non-blocking send. */
    method TrySend(qt: QueuedTask) returns (sent: bool)
      requires Valid() && qt.id in tasks && tasks[qt.id] == qt
      modifies this
      ensures Valid() && tasks == old(tasks)
      ensures sent <==> !Full(old(q))
      ensures q == if sent then Send(old(q), qt.id) else old(q)
    {
      sent := |queue| < cap;
      if sent {
        queue := queue + [qt];
        q := Send(q, qt.id);
      }
    }

    method Discard(qt: QueuedTask)
      requires Valid() && qt.id in tasks && tasks[qt.id] == qt && qt.id !in q.line
      modifies this, qt
      ensures Valid()
      ensures q == Drop(old(q), qt.id)
    {
      qt.now := qt.now.(cancelled := true);
      tasks := tasks - {qt.id};
      q := Drop(q, qt.id);
    }

    /** Receiving blocks while the queue is empty. */
    method Next() returns (qt: QueuedTask)
      requires Valid() && queue != []
      modifies this
      ensures Valid()
      ensures qt.id == old(q).line[0] && qt.id in tasks && tasks[qt.id] == qt
      ensures q == old(q).(line := old(q).line[1..])
    {
      qt := queue[0];
      queue := queue[1..];
      q := q.(line := q.line[1..]);
    }

    method Update(id: TaskId, fn: Info -> Info)
      requires Valid()
      modifies this`q, tasks.Values
      ensures Valid()
      ensures q == if id in old(q).tasks
                   then Change(old(q), id, WithInfo(old(q).tasks[id], fn(InfoOf(old(q).tasks[id]))))
                   else old(q)
    {
      if id !in tasks {
        return;
      }
      var qt := tasks[id];
      qt.now := WithInfo(qt.now, fn(InfoOf(qt.now)));
      q := Change(q, id, qt.now);
    }

    /** Go visits the map in no particular order, so which of several waiting tasks is found
        is left open. */
    method FindWaiting(a: string) returns (found: Option<QueuedTask>)
      requires Valid()
      ensures found.None? ==> forall id :: !Waits(q, a, id)
      ensures found.Some? ==> Waits(q, a, found.value.id) && tasks[found.value.id] == found.value
    {
      var rest := tasks.Keys;
      while rest != {}
        invariant rest <= tasks.Keys
        invariant forall id :: id in tasks.Keys - rest ==> !Waits(q, a, id)
        decreases rest
      {
        var id :| id in rest;
        rest := rest - {id};
        var t := tasks[id];
        if Trim(t.now.approval) != a {
          continue;
        }
        if t.now.status != Pending {
          continue;
        }
        return Some(t);
      }
      return None;
    }

    method EnqueueResumeByApprovalID(approvalRequestID: string) returns (r: Result<TaskId>)
      requires Valid()
      modifies this, tasks.Values
      ensures Valid()
      ensures var a := Trim(approvalRequestID);
        && (r.Ok? ==> Accepts(old(q), a, r.value) && q == Accepted(old(q), r.value, a))
        && (r.Err? ==> q == old(q)
                       && (a == "" || Full(q)
                           || (exists id :: Waits(q, a, id) && Trim(q.tasks[id].resume) != "")
                           || (forall id :: !Waits(q, a, id))))
    {
      var a := Trim(approvalRequestID);
      var lo, hi := TrimParts(approvalRequestID);
      if a == "" {
        return Err("missing approval_request_id");
      }
      var found := FindWaiting(a);
      if found.None? {
        return Err("no pending task found for approval_request_id");
      }
      var qt := found.value;
      if Trim(qt.now.resume) != "" {
        assert Waits(q, a, qt.id);
        return Err("task already queued for resume");
      }
      TrimIdle(qt.now.resume);
      var sent := Requeue(qt, a);
      r := if sent then Ok(qt.id) else Err("queue is full");
    }

    /** Marks the task and sends it, or undoes the mark when the queue is full. */
    method Requeue(qt: QueuedTask, a: string) returns (sent: bool)
      requires Valid() && qt.id in tasks && tasks[qt.id] == qt
      requires qt.now.resume == "" && Trimmed(a)
      modifies this, qt
      ensures Valid()
      ensures sent <==> !Full(old(q))
      ensures q == if sent then Accepted(old(q), qt.id, a) else old(q)
    {
      qt.now := qt.now.(resume := a);
      sent := |queue| < cap;
      if sent {
        queue := queue + [qt];
        q := Accepted(q, qt.id, a);
      } else {
        qt.now := qt.now.(resume := "");
      }
    }

    method FailPendingByApprovalID(approvalRequestID: string, errMsg: string) returns (r: Option<TaskId>)
      requires Valid()
      modifies this`q, tasks.Values
      ensures Valid()
      ensures var a := Trim(approvalRequestID);
        && (r.Some? ==> a != "" && Waits(old(q), a, r.value)
                        && q == FailedBy(old(q), r.value, Trim(errMsg)))
        && (r.None? ==> q == old(q) && (a == "" || forall id :: !Waits(q, a, id)))
    {
      var a := Trim(approvalRequestID);
      if a == "" {
        return None;
      }
      var found := FindWaiting(a);
      if found.None? {
        return None;
      }
      var qt := found.value;
      Fail(qt, Trim(errMsg));
      return Some(qt.id);
    }

    method Fail(qt: QueuedTask, text: string)
      requires Valid() && qt.id in tasks && tasks[qt.id] == qt
      modifies this`q, qt
      ensures Valid()
      ensures q == FailedBy(old(q), qt.id, text)
    {
      qt.now := qt.now.(status := Failed, error := text, cancelled := true);
      q := FailedBy(q, qt.id, text);
    }
  }
}
