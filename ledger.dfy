/** The task ledger (telegram_agent/app/queue.py): one row per task, keyed by
    its id, with the status machine
    pending_approval -> queued -> running -> completed | failed, plus cancelled.
    The SQLite table is a map from id to row; `time.time()` is the `clock`
    field, which only `Tick` moves. */
module Ledger {
  import opened Wrappers
  import opened Plans

  datatype Status = PendingApproval | Queued | Running | Completed | Failed | Cancelled

  /** `result_json`: the executor's report, or `{"error": message}`. */
  datatype TaskResult = Report(report: RunReport) | ErrorMessage(message: string)

  /** One row of the `tasks` table; `plan_json` is kept already parsed. */
  datatype Task = Task(
    taskId: string,
    chatId: int,
    userId: int,
    command: string,
    plan: Plan,
    status: Status,
    createdAt: nat,
    updatedAt: nat,
    timeoutSeconds: int,
    result: Option<TaskResult>)

  /** The message SQLite gives when a primary key is inserted twice. */
  const DuplicateIdError := "UNIQUE constraint failed: tasks.task_id"

  /** The `WHERE` clause of `_update_status`: the row exists and, when an
      expected status is given, has it. */
  predicate CanUpdate(tasks: map<string, Task>, id: string, expected: Option<Status>) {
    id in tasks && (expected.None? || tasks[id].status == expected.value)
  }

  /** The `SET status = ?, updated_at = ?` of `_update_status` on row `id`. */
  function SetStatus(tasks: map<string, Task>, id: string, status: Status, now: nat): (r: map<string, Task>)
    requires id in tasks
    ensures r.Keys == tasks.Keys
    ensures r[id].status == status && r[id].updatedAt == now
    // every other column of the row, and every other row, is untouched
    ensures r[id] == tasks[id].(status := status, updatedAt := now)
    ensures forall other :: other in tasks && other != id ==> r[other] == tasks[other]
  {
    tasks[id := tasks[id].(status := status, updatedAt := now)]
  }

  /** The `UPDATE` of `mark_done` / `mark_failed`: status, time and result of
      row `id`, if there is one; an unknown id matches no row. */
  function Finish(tasks: map<string, Task>, id: string, status: Status, result: TaskResult, now: nat): (r: map<string, Task>)
    ensures r.Keys == tasks.Keys
    ensures id in tasks ==> r[id] == tasks[id].(status := status, updatedAt := now, result := Some(result))
    ensures forall other :: other in tasks && other != id ==> r[other] == tasks[other]
  {
    if id in tasks then tasks[id := tasks[id].(status := status, updatedAt := now, result := Some(result))] else tasks
  }

  /** `cancel_check` of the driver: the row exists and reads `cancelled`. */
  predicate IsCancelled(tasks: map<string, Task>, id: string) {
    id in tasks && tasks[id].status == Cancelled
  }

  predicate SomeRunning(tasks: map<string, Task>) {
    exists id :: id in tasks && tasks[id].status == Running
  }

  /** The design's invariant: at most one task is running. */
  predicate AtMostOneRunning(tasks: map<string, Task>) {
    forall a, b :: a in tasks && b in tasks && tasks[a].status == Running && tasks[b].status == Running ==> a == b
  }

  /** The ids of a list of rows. */
  function IdsOf(rows: seq<Task>): set<string> {
    set i | 0 <= i < |rows| :: rows[i].taskId
  }

  lemma IdsOfAppend(rows: seq<Task>, row: Task)
    ensures IdsOf(rows + [row]) == IdsOf(rows) + {row.taskId}
  {
    var r := rows + [row];
    assert forall i :: 0 <= i < |rows| ==> r[i] == rows[i];
    assert r[|rows|] == row;
  }

  class TaskQueue {
    var tasks: map<string, Task>
    var clock: nat

    /** Every row is stored under its own id, and its times are ordered and
        not in the future. */
    ghost predicate Valid()
      reads this
    {
      forall id :: id in tasks ==>
        tasks[id].taskId == id && tasks[id].createdAt <= tasks[id].updatedAt <= clock
    }

    /** `TaskQueue(db_path)` on a fresh database: an empty table. */
    constructor ()
      ensures Valid() && tasks == map[] && clock == 0
    {
      tasks := map[];
      clock := 0;
    }

    /** Time passes. */
    method Tick(seconds: nat)
      requires Valid()
      modifies this
      ensures Valid()
      ensures clock == old(clock) + seconds && tasks == old(tasks)
    {
      clock := clock + seconds;
    }

    /** `create_task`: a new row `pending_approval` with both times now and no
        result. `freshId` stands for `uuid4()`; if it is already a key, the
        insert fails as SQLite's primary key does and nothing changes. */
    method CreateTask(chatId: int, userId: int, command: string, plan: Plan, timeoutSeconds: int, freshId: string)
      returns (r: Result<string>)
      requires Valid()
      modifies this
      ensures Valid() && clock == old(clock)
      ensures freshId !in old(tasks) ==>
        && r == Ok(freshId)
        && tasks == old(tasks)[freshId := Task(freshId, chatId, userId, command, plan, PendingApproval,
                                               clock, clock, timeoutSeconds, None)]
      ensures freshId in old(tasks) ==> r == Err(DuplicateIdError) && tasks == old(tasks)
    {
      if freshId in tasks {
        return Err(DuplicateIdError);
      }
      tasks := tasks[freshId := Task(freshId, chatId, userId, command, plan, PendingApproval, clock, clock, timeoutSeconds, None)];
      r := Ok(freshId);
    }

    /** `_update_status`: a compare-and-swap when `expected` is given, an
        unconditional update otherwise; true iff a row changed. */
    method UpdateStatus(id: string, status: Status, expected: Option<Status>) returns (changed: bool)
      requires Valid()
      modifies this
      ensures Valid() && clock == old(clock)
      ensures changed == CanUpdate(old(tasks), id, expected)
      ensures tasks == if changed then SetStatus(old(tasks), id, status, clock) else old(tasks)
    {
      if CanUpdate(tasks, id, expected) {
        tasks := SetStatus(tasks, id, status, clock);
        changed := true;
      } else {
        changed := false;
      }
    }

    /** `approve_task`: pending_approval -> queued, and nothing else. */
    method ApproveTask(id: string) returns (ok: bool)
      requires Valid()
      modifies this
      ensures Valid() && clock == old(clock)
      ensures ok <==> id in old(tasks) && old(tasks)[id].status == PendingApproval
      ensures tasks == if ok then SetStatus(old(tasks), id, Queued, clock) else old(tasks)
    {
      ok := UpdateStatus(id, Queued, Some(PendingApproval));
    }

    /** `cancel_task`: any existing row becomes cancelled, whatever its status,
        a completed or failed one included. */
    method CancelTask(id: string) returns (ok: bool)
      requires Valid()
      modifies this
      ensures Valid() && clock == old(clock)
      ensures ok <==> id in old(tasks)
      ensures tasks == if ok then SetStatus(old(tasks), id, Cancelled, clock) else old(tasks)
    {
      ok := UpdateStatus(id, Cancelled, None);
    }

    /** `mark_running`: queued -> running, and nothing else; it does not look
        at the other rows. */
    method MarkRunning(id: string) returns (ok: bool)
      requires Valid()
      modifies this
      ensures Valid() && clock == old(clock)
      ensures ok <==> id in old(tasks) && old(tasks)[id].status == Queued
      ensures tasks == if ok then SetStatus(old(tasks), id, Running, clock) else old(tasks)
    {
      ok := UpdateStatus(id, Running, Some(Queued));
    }

    /** `mark_done`: unconditionally completed, with the report as result. */
    method MarkDone(id: string, report: RunReport)
      requires Valid()
      modifies this
      ensures Valid() && clock == old(clock)
      ensures tasks == Finish(old(tasks), id, Completed, Report(report), clock)
    {
      tasks := Finish(tasks, id, Completed, Report(report), clock);
    }

    /** `mark_failed`: unconditionally failed, with `{"error": message}`. */
    method MarkFailed(id: string, message: string)
      requires Valid()
      modifies this
      ensures Valid() && clock == old(clock)
      ensures tasks == Finish(old(tasks), id, Failed, ErrorMessage(message), clock)
    {
      tasks := Finish(tasks, id, Failed, ErrorMessage(message), clock);
    }

    /** `get_task`: the row stored under `id`, if any. */
    function GetTask(id: string): (r: Option<Task>)
      requires Valid()
      reads this
      ensures r.Some? <==> id in tasks
      ensures r.Some? ==> r.value == tasks[id]
      ensures r.Some? ==> r.value.taskId == id && r.value.createdAt <= r.value.updatedAt <= clock
    {
      if id in tasks then Some(tasks[id]) else None
    }

    /** `has_running`. */
    predicate HasRunning()
      reads this
    {
      SomeRunning(tasks)
    }

    /** `next_queued`: nothing while a task is running; otherwise a queued
        row with the smallest `created_at`, or nothing if none is queued. */
    method NextQueued() returns (t: Option<Task>)
      requires Valid()
      ensures HasRunning() ==> t.None?
      ensures !HasRunning() && t.None? ==> forall id :: id in tasks ==> tasks[id].status != Queued
      ensures t.Some? ==>
        && t.value.taskId in tasks && tasks[t.value.taskId] == t.value
        && t.value.status == Queued
        && forall id :: id in tasks && tasks[id].status == Queued ==> t.value.createdAt <= tasks[id].createdAt
    {
      if HasRunning() {
        return None;
      }
      t := None;
      var unseen := tasks.Keys;
      while unseen != {}
        invariant unseen <= tasks.Keys
        invariant t.Some? ==> t.value.taskId in tasks && tasks[t.value.taskId] == t.value && t.value.status == Queued
        invariant forall id :: id in tasks && id !in unseen && tasks[id].status == Queued ==>
          t.Some? && t.value.createdAt <= tasks[id].createdAt
        decreases unseen
      {
        var id :| id in unseen;
        var row := tasks[id];
        if row.status == Queued && (t.None? || row.createdAt < t.value.createdAt) {
          t := Some(row);
        }
        unseen := unseen - {id};
      }
    }

    /** The newest of the rows not yet listed (`ORDER BY created_at DESC`). */
    method Newest(unseen: set<string>) returns (id: string)
      requires Valid() && unseen != {} && unseen <= tasks.Keys
      ensures id in unseen
      ensures forall other :: other in unseen ==> tasks[other].createdAt <= tasks[id].createdAt
    {
      id :| id in unseen;
      var rest := unseen - {id};
      while rest != {}
        invariant rest <= unseen && id in unseen
        invariant forall other :: other in unseen - rest ==> tasks[other].createdAt <= tasks[id].createdAt
        decreases rest
      {
        var other :| other in rest;
        if tasks[other].createdAt > tasks[id].createdAt {
          id := other;
        }
        rest := rest - {other};
      }
    }

    /** `list_recent(limit)`: the `limit` newest rows, newest first (SQLite
        reads a negative `LIMIT` as no limit; the default of 5 is the
        caller's). */
    method ListRecent(limit: int) returns (rows: seq<Task>)
      requires Valid()
      ensures |rows| == if 0 <= limit < |tasks| then limit else |tasks|
      ensures forall i :: 0 <= i < |rows| ==> rows[i].taskId in tasks && tasks[rows[i].taskId] == rows[i]
      ensures forall i, j :: 0 <= i < j < |rows| ==> rows[i].taskId != rows[j].taskId
      ensures forall i, j :: 0 <= i < j < |rows| ==> rows[i].createdAt >= rows[j].createdAt
      // no row left out is newer than one listed
      ensures forall id, i :: id in tasks && id !in IdsOf(rows) && 0 <= i < |rows| ==>
        tasks[id].createdAt <= rows[i].createdAt
    {
      rows := [];
      var unseen := tasks.Keys;
      while unseen != {} && (limit < 0 || |rows| < limit)
        invariant Listing(tasks, rows, unseen)
        invariant |rows| + |unseen| == |tasks|
        invariant 0 <= limit ==> |rows| <= limit
        decreases unseen
      {
        var id := Newest(unseen);
        ListingStep(tasks, rows, unseen, id);
        rows := rows + [tasks[id]];
        unseen := unseen - {id};
      }
    }
  }

  /** The state of `list_recent` part-way: `rows` are distinct rows of the
      table, newest first, none older than a row not yet listed. */
  ghost predicate Listing(tasks: map<string, Task>, rows: seq<Task>, unseen: set<string>) {
    && unseen <= tasks.Keys
    && IdsOf(rows) == tasks.Keys - unseen
    && (forall i :: 0 <= i < |rows| ==> rows[i].taskId in tasks && tasks[rows[i].taskId] == rows[i])
    && (forall i, j :: 0 <= i < j < |rows| ==> rows[i].taskId != rows[j].taskId)
    && (forall i, j :: 0 <= i < j < |rows| ==> rows[i].createdAt >= rows[j].createdAt)
    && (forall id, i :: id in unseen && 0 <= i < |rows| ==> tasks[id].createdAt <= rows[i].createdAt)
  }

  /** Listing the newest unseen row next keeps `Listing`. */
  lemma ListingStep(tasks: map<string, Task>, rows: seq<Task>, unseen: set<string>, id: string)
    requires forall k :: k in tasks ==> tasks[k].taskId == k
    requires Listing(tasks, rows, unseen)
    requires id in unseen
    requires forall other :: other in unseen ==> tasks[other].createdAt <= tasks[id].createdAt
    ensures Listing(tasks, rows + [tasks[id]], unseen - {id})
  {
    assert forall i :: 0 <= i < |rows| ==> rows[i].taskId != id;
    IdsOfAppend(rows, tasks[id]);
    var r := rows + [tasks[id]];
    assert forall i :: 0 <= i < |rows| ==> r[i] == rows[i];
  }

  /** The worked lifecycle of `test_task_lifecycle`: create, approve,
      next_queued finds it, mark_running, cancel; the statuses read back in
      turn. */
  method Lifecycle() returns (statuses: seq<Status>, found: Option<string>)
    ensures statuses == [PendingApproval, Queued, Running, Cancelled]
    ensures found == Some("t1")
  {
    var q := new TaskQueue();
    var created := q.CreateTask(1, 2, "do something", Plan("", []), 10, "t1");
    var id := created.value;
    statuses := [q.GetTask(id).value.status];
    var approved := q.ApproveTask(id);
    assert approved;
    statuses := statuses + [q.GetTask(id).value.status];
    var next := q.NextQueued();
    assert forall other :: other in q.tasks ==> other == "t1";
    found := if next.Some? then Some(next.value.taskId) else None;
    var running := q.MarkRunning(id);
    assert running;
    statuses := statuses + [q.GetTask(id).value.status];
    var cancelled := q.CancelTask(id);
    assert cancelled;
    statuses := statuses + [q.GetTask(id).value.status];
  }

  // ---------------------------------------------------------------- lemmas

  /** Approving or cancelling (any status update other than to running)
      never adds a running task: it keeps "at most one running". */
  lemma {:induction false} StatusUpdatesKeepOneRunning(tasks: map<string, Task>, id: string, status: Status, now: nat)
    requires AtMostOneRunning(tasks) && id in tasks
    requires status != Running
    ensures AtMostOneRunning(SetStatus(tasks, id, status, now))
  {
    var r := SetStatus(tasks, id, status, now);
    forall a, b | a in r && b in r && r[a].status == Running && r[b].status == Running
      ensures a == b
    {
      assert a != id && b != id;
    }
  }

  lemma {:induction false} FinishKeepsOneRunning(tasks: map<string, Task>, id: string, status: Status, result: TaskResult, now: nat)
    requires AtMostOneRunning(tasks)
    requires status != Running
    ensures AtMostOneRunning(Finish(tasks, id, status, result, now))
    ensures !SomeRunning(tasks) ==> !SomeRunning(Finish(tasks, id, status, result, now))
  {
    var r := Finish(tasks, id, status, result, now);
    forall a, b | a in r && b in r && r[a].status == Running && r[b].status == Running
      ensures a == b
    {
      assert a != id && b != id;
    }
    if SomeRunning(r) {
      var a :| a in r && r[a].status == Running;
      assert a != id && tasks[a].status == Running;
    }
  }

  /** Claiming a queued task when none is running leaves exactly that one
      running: the gate of `next_queued` is what keeps the invariant. */
  lemma {:induction false} ClaimKeepsOneRunning(tasks: map<string, Task>, id: string, now: nat)
    requires !SomeRunning(tasks) && id in tasks
    ensures AtMostOneRunning(SetStatus(tasks, id, Running, now))
    ensures forall other :: other in tasks && other != id ==> SetStatus(tasks, id, Running, now)[other].status != Running
  {
    var r := SetStatus(tasks, id, Running, now);
    forall other | other in tasks && other != id
      ensures r[other].status != Running
    {
      assert r[other] == tasks[other];
    }
  }

  /** `mark_running` on its own does not keep the invariant: with one task
      running, another queued task is still claimed. */
  lemma MarkRunningAloneAllowsTwo(a: Task, b: Task)
    requires a.taskId == "a" && b.taskId == "b"
    requires a.status == Running && b.status == Queued
    ensures var tasks := map["a" := a, "b" := b];
      && CanUpdate(tasks, "b", Some(Queued))
      && !AtMostOneRunning(SetStatus(tasks, "b", Running, 0))
  {
    var tasks := map["a" := a, "b" := b];
    var r := SetStatus(tasks, "b", Running, 0);
    assert r["a"].status == Running && r["b"].status == Running;
  }

  /** Cancelling overwrites a finished task: a completed task reads back as
      cancelled. */
  lemma CancelOverwritesCompleted(tasks: map<string, Task>, id: string, now: nat)
    requires id in tasks && tasks[id].status == Completed
    ensures CanUpdate(tasks, id, None)
    ensures SetStatus(tasks, id, Cancelled, now)[id].status == Cancelled
    ensures SetStatus(tasks, id, Cancelled, now)[id].result == tasks[id].result
  {
  }
}
