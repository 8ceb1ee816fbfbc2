/** The per-tenant worker queue kept in one flat task list
    (scripts/task_execution_product_path.py, `submit_task`, `run_worker_once`, `get_task_result`). */
module TaskQueue {
  import opened Results

  datatype Stage = SUBMITTED | QUEUED | CLAIMED | EXECUTED | COMPLETED
  datatype Echo = Echo(message: Option<string>)
  datatype Task = Task(tenant: string, taskId: string, runId: string, taskType: string, payload: map<string, string>,
                       status: Stage, lifecycle: seq<Stage>, result: Option<Echo>)

  function NewTask(tenant: string, taskId: string, runId: string, payload: map<string, string>): Task {
    Task(tenant, taskId, runId, "echo", payload, QUEUED, [SUBMITTED, QUEUED], None)
  }

  function ExecuteEcho(payload: map<string, string>): Echo {
    Echo(if "message" in payload then Some(payload["message"]) else None)
  }

  predicate Fresh(t: Task) { t == NewTask(t.tenant, t.taskId, t.runId, t.payload) }

  // What serving a task means: the whole lifecycle, and the message of its own payload or none.
  function Complete(t: Task): Task {
    t.(status := COMPLETED, lifecycle := [SUBMITTED, QUEUED, CLAIMED, EXECUTED, COMPLETED],
       result := Some(Echo(if "message" in t.payload then Some(t.payload["message"]) else None)))
  }

  // ----- the flat list

  function Of(tasks: seq<Task>, tenant: string): seq<Task> {
    if tasks == [] then []
    else if tasks[0].tenant == tenant then [tasks[0]] + Of(tasks[1..], tenant)
    else Of(tasks[1..], tenant)
  }

  predicate Waiting(t: Task, tenant: string) { t.tenant == tenant && t.status == QUEUED }

  // Position of the first queued task of the tenant, or the length of the list.
  function FirstWaiting(tasks: seq<Task>, tenant: string): (i: nat)
    ensures i <= |tasks|
    ensures i < |tasks| ==> Waiting(tasks[i], tenant)
    ensures forall k :: 0 <= k < i ==> !Waiting(tasks[k], tenant)
  {
    if tasks == [] || Waiting(tasks[0], tenant) then 0 else 1 + FirstWaiting(tasks[1..], tenant)
  }

  datatype Reply = NoTask | Did(task: Task) | Unsupported

  // One worker call on the stored list. `Unsupported` is the branch that raises.
  function Work(tasks: seq<Task>, tenant: string): (seq<Task>, Reply) {
    var i := FirstWaiting(tasks, tenant);
    if i == |tasks| then (tasks, NoTask)
    else if tasks[i].taskType != "echo" then (tasks, Unsupported)
    else
      var t := tasks[i].(status := COMPLETED, lifecycle := tasks[i].lifecycle + [CLAIMED] + [EXECUTED] + [COMPLETED],
                         result := Some(ExecuteEcho(tasks[i].payload)));
      (tasks[i := t], Did(t))
  }

  ghost predicate FirstRun(tasks: seq<Task>, runId: string, k: nat)
    requires k < |tasks|
  {
    tasks[k].runId == runId && forall j :: 0 <= j < k ==> tasks[j].runId != runId
  }

  class ProductStore {
    var tasks: seq<Task>

    constructor ()
      ensures tasks == []
    {
      tasks := [];
    }

    method SubmitTask(tenant: string, taskType: string, payload: map<string, string>, taskId: string, runId: string)
      returns (ok: bool)
      modifies this
      ensures ok <==> tenant != "" && taskType == "echo"
      ensures tasks == if ok then old(tasks) + [NewTask(tenant, taskId, runId, payload)] else old(tasks)
    {
      if tenant == "" || taskType != "echo" { return false; }
      tasks := tasks + [Task(tenant, taskId, runId, taskType, payload, QUEUED, [SUBMITTED, QUEUED], None)];
      ok := true;
    }

    method RunWorkerOnce(tenant: string) returns (r: Reply)
      modifies this
      ensures (tasks, r) == Work(old(tasks), tenant)
    {
      var i := 0;
      while i < |tasks| && !(tasks[i].tenant == tenant && tasks[i].status == QUEUED)
        invariant 0 <= i <= |tasks|
        invariant forall k :: 0 <= k < i ==> !Waiting(tasks[k], tenant)
      {
        i := i + 1;
      }
      assert i == FirstWaiting(tasks, tenant);
      if i == |tasks| { return NoTask; }
      var selected := tasks[i];
      var claimed := selected.(status := CLAIMED, lifecycle := selected.lifecycle + [CLAIMED]);
      if claimed.taskType != "echo" { return Unsupported; }
      var result := ExecuteEcho(claimed.payload);
      var executed := claimed.(lifecycle := claimed.lifecycle + [EXECUTED], result := Some(result));
      var completed := executed.(status := COMPLETED, lifecycle := executed.lifecycle + [COMPLETED]);
      tasks := tasks[i := completed];
      r := Did(completed);
    }

    // The first record with this run id, if any.
    method GetTaskResult(runId: string) returns (r: Option<Task>)
      ensures r.None? <==> forall k :: 0 <= k < |tasks| ==> tasks[k].runId != runId
      ensures r.Some? ==> exists k :: 0 <= k < |tasks| && FirstRun(tasks, runId, k) && tasks[k] == r.value
    {
      var i := 0;
      while i < |tasks|
        invariant 0 <= i <= |tasks|
        invariant forall k :: 0 <= k < i ==> tasks[k].runId != runId
      {
        if tasks[i].runId == runId {
          assert FirstRun(tasks, runId, i);
          return Some(tasks[i]);
        }
        i := i + 1;
      }
      r := None;
    }
  }

  // ----- the FIFO queues it stands for

  // A tenant's records: the first `done` submissions completed, the rest still queued, in order.
  ghost predicate Fifo(records: seq<Task>, submitted: seq<Task>, done: nat) {
    && done <= |submitted| == |records|
    && (forall k :: 0 <= k < |submitted| ==> Fresh(submitted[k]))
    && (forall k :: 0 <= k < |records| ==> records[k] == if k < done then Complete(submitted[k]) else submitted[k])
  }

  lemma {:induction false} OfAppend(tasks: seq<Task>, t: Task, tenant: string)
    ensures Of(tasks + [t], tenant) == if t.tenant == tenant then Of(tasks, tenant) + [t] else Of(tasks, tenant)
  {
    if tasks == [] {
      assert [t][1..] == [] && [] + [t] == [t];
    } else {
      assert (tasks + [t])[1..] == tasks[1..] + [t];
      OfAppend(tasks[1..], t, tenant);
    }
  }

  // Where the i-th record of the list sits among its tenant's records.
  function Rank(tasks: seq<Task>, tenant: string, i: nat): nat
    requires i <= |tasks|
  {
    |Of(tasks[..i], tenant)|
  }

  lemma {:induction false} OfUpdate(tasks: seq<Task>, i: nat, t: Task, tenant: string)
    requires i < |tasks| && t.tenant == tasks[i].tenant
    ensures tenant != t.tenant ==> Of(tasks[i := t], tenant) == Of(tasks, tenant)
    ensures tenant == t.tenant ==> var k := Rank(tasks, tenant, i);
      k < |Of(tasks, tenant)| && Of(tasks, tenant)[k] == tasks[i] &&
      Of(tasks[i := t], tenant) == Of(tasks, tenant)[k := t]
  {
    if i == 0 {
      assert tasks[0 := t][1..] == tasks[1..] && tasks[..0] == [];
    } else {
      assert tasks[i := t][1..] == tasks[1..][i - 1 := t];
      assert tasks[..i][1..] == tasks[1..][..i - 1];
      OfUpdate(tasks[1..], i - 1, t, tenant);
    }
  }

  lemma {:induction false} OfMembers(tasks: seq<Task>, tenant: string)
    ensures forall k :: 0 <= k < |Of(tasks, tenant)| ==>
      Of(tasks, tenant)[k] in tasks && Of(tasks, tenant)[k].tenant == tenant
    ensures forall t :: t in tasks && t.tenant == tenant ==> t in Of(tasks, tenant)
  {
    if tasks != [] {
      OfMembers(tasks[1..], tenant);
      assert tasks == [tasks[0]] + tasks[1..];
    }
  }

  lemma {:induction false} OfPrefix(tasks: seq<Task>, tenant: string, i: nat)
    requires i <= |tasks|
    ensures Of(tasks[..i], tenant) <= Of(tasks, tenant)
  {
    if i > 0 {
      assert tasks[..i][1..] == tasks[1..][..i - 1];
      OfPrefix(tasks[1..], tenant, i - 1);
    }
  }

  lemma CompletesFresh(t: Task)
    requires Fresh(t)
    ensures Complete(t) == t.(status := COMPLETED, lifecycle := t.lifecycle + [CLAIMED] + [EXECUTED] + [COMPLETED],
                              result := Some(ExecuteEcho(t.payload)))
  { }

  lemma BeforeFirstWaiting(tasks: seq<Task>, tenant: string, i: nat)
    requires i <= |tasks| && forall k :: 0 <= k < i ==> !Waiting(tasks[k], tenant)
    ensures forall k :: 0 <= k < |Of(tasks[..i], tenant)| ==> Of(tasks[..i], tenant)[k].status != QUEUED
  {
    OfMembers(tasks[..i], tenant);
    forall k | 0 <= k < |Of(tasks[..i], tenant)| ensures Of(tasks[..i], tenant)[k].status != QUEUED {
      var j :| 0 <= j < i && tasks[..i][j] == Of(tasks[..i], tenant)[k];
      assert !Waiting(tasks[j], tenant);
    }
  }

  lemma FifoStatus(records: seq<Task>, submitted: seq<Task>, done: nat)
    requires Fifo(records, submitted, done)
    ensures forall k :: 0 <= k < |records| ==> (records[k].status == QUEUED <==> k >= done)
  {
    forall k | 0 <= k < |records| ensures records[k].status == QUEUED <==> k >= done { assert Fresh(submitted[k]); }
  }

  lemma NothingWaiting(tasks: seq<Task>, tenant: string, submitted: seq<Task>, done: nat)
    requires Fifo(Of(tasks, tenant), submitted, done) && FirstWaiting(tasks, tenant) == |tasks|
    ensures done == |submitted|
  {
    BeforeFirstWaiting(tasks, tenant, |tasks|);
    assert tasks[..|tasks|] == tasks;
    var records := Of(tasks, tenant);
    FifoStatus(records, submitted, done);
    assert records != [] ==> records[|records| - 1].status != QUEUED;
  }

  lemma WaitingRank(tasks: seq<Task>, tenant: string, submitted: seq<Task>, done: nat, i: nat)
    requires Fifo(Of(tasks, tenant), submitted, done) && i < |tasks| && i == FirstWaiting(tasks, tenant)
    ensures Rank(tasks, tenant, i) == done < |submitted| && tasks[i] == submitted[done]
  {
    OfUpdate(tasks, i, tasks[i], tenant);
    OfPrefix(tasks, tenant, i);
    BeforeFirstWaiting(tasks, tenant, i);
    var prefix := Of(tasks[..i], tenant);
    FifoStatus(Of(tasks, tenant), submitted, done);
    assert prefix != [] ==> Of(tasks, tenant)[|prefix| - 1] == prefix[|prefix| - 1];
  }

  // A worker call completes the oldest pending submission, or finds none; nothing else changes.
  lemma WorkIsDequeue(tasks: seq<Task>, tenant: string, submitted: seq<Task>, done: nat)
    requires Fifo(Of(tasks, tenant), submitted, done)
    ensures var (after, reply) := Work(tasks, tenant);
      if done == |submitted| then after == tasks && reply == NoTask
      else reply == Did(Complete(submitted[done])) && Fifo(Of(after, tenant), submitted, done + 1)
           && forall other :: other != tenant ==> Of(after, other) == Of(tasks, other)
  {
    var i := FirstWaiting(tasks, tenant);
    if i == |tasks| {
      NothingWaiting(tasks, tenant, submitted, done);
    } else {
      var t := Work(tasks, tenant).0[i];
      WaitingRank(tasks, tenant, submitted, done, i);
      CompletesFresh(tasks[i]);
      forall other ensures other != tenant ==> Of(tasks[i := t], other) == Of(tasks, other) {
        OfUpdate(tasks, i, t, other);
      }
      OfUpdate(tasks, i, t, tenant);
    }
  }

  // ----- whole runs

  datatype Op = Submit(task: Task) | Worker(tenant: string)

  predicate Submission(op: Op) { op.Submit? ==> Fresh(op.task) && op.task.tenant != "" }

  function Step(tasks: seq<Task>, op: Op): seq<Task> {
    match op
    case Submit(t) => tasks + [t]
    case Worker(tenant) => Work(tasks, tenant).0
  }

  function Exec(ops: seq<Op>): seq<Task> {
    if ops == [] then [] else Step(Exec(ops[..|ops| - 1]), ops[|ops| - 1])
  }

  // What the tenant submitted, in order, and how many worker calls found something to do.
  function Submitted(ops: seq<Op>, tenant: string): seq<Task> {
    if ops == [] then []
    else
      var before, op := Submitted(ops[..|ops| - 1], tenant), ops[|ops| - 1];
      if op.Submit? && op.task.tenant == tenant then before + [op.task] else before
  }

  function Productive(ops: seq<Op>, tenant: string): (n: nat)
    ensures n <= |Submitted(ops, tenant)|
  {
    if ops == [] then 0
    else
      var before, op := Productive(ops[..|ops| - 1], tenant), ops[|ops| - 1];
      if op == Worker(tenant) && before < |Submitted(ops[..|ops| - 1], tenant)| then before + 1 else before
  }

  /** After any sequence of submissions and worker calls each tenant's records are its completed
      submissions followed by its queued ones, in submission order: the flat list is one FIFO queue
      per tenant. */
  lemma {:induction false} RunIsFifo(ops: seq<Op>, tenant: string)
    requires forall op :: op in ops ==> Submission(op)
    ensures Fifo(Of(Exec(ops), tenant), Submitted(ops, tenant), Productive(ops, tenant))
    decreases |ops|
  {
    if ops != [] {
      var before, op := ops[..|ops| - 1], ops[|ops| - 1];
      assert op in ops;
      RunIsFifo(before, tenant);
      match op
      case Submit(t) => OfAppend(Exec(before), t, tenant);
      case Worker(w) =>
        if w == tenant {
          WorkIsDequeue(Exec(before), w, Submitted(before, w), Productive(before, w));
        } else {
          RunIsFifo(before, w);
          WorkIsDequeue(Exec(before), w, Submitted(before, w), Productive(before, w));
        }
    }
  }

  // The reported task is the submitted one, completed, with its own message echoed.
  ghost predicate ServedAs(t: Task, submitted: Task) {
    && t.tenant == submitted.tenant && t.taskId == submitted.taskId && t.runId == submitted.runId
    && t.taskType == submitted.taskType && t.payload == submitted.payload && t.status == COMPLETED && t.result.Some?
    && (if "message" in submitted.payload then t.result.value.message == Some(submitted.payload["message"])
        else t.result.value.message == None)
  }

  /** The next worker call completes exactly the oldest pending submission with its own echo, and
      reports no task exactly when completions equal submissions; the raising branch is never taken. */
  lemma WorkerServesInOrder(ops: seq<Op>, tenant: string)
    requires forall op :: op in ops ==> Submission(op)
    ensures var reply := Work(Exec(ops), tenant).1;
      var submitted, n := Submitted(ops, tenant), Productive(ops, tenant);
      && (reply == NoTask <==> n == |submitted|)
      && (n < |submitted| ==> reply == Did(Complete(submitted[n])) && ServedAs(reply.task, submitted[n]))
      && reply != Unsupported
  {
    RunIsFifo(ops, tenant);
    WorkIsDequeue(Exec(ops), tenant, Submitted(ops, tenant), Productive(ops, tenant));
  }
}
