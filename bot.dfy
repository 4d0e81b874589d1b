/** The driver of the agent (telegram_agent/app/bot.py): the queue calls of
    the `/do`, `/approve` and `/cancel` handlers, `_format_plan`, and
    `_run_next_task`, the periodic tick that claims one queued task, runs it
    and records how it ended. Telegram itself is not modelled: what a handler
    would send back is returned as a `Reply`, and the tick's final message as
    a notice. */
module Bot {
  import opened Wrappers
  import opened Text
  import opened Plans
  import opened Ledger
  import opened Executor
  import opened Config
  import opened Auth

  /** What a command handler answers: nothing, a message to the chat, or an
      exception that escapes the handler. */
  datatype Reply = NoReply | Say(text: string) | Raised(error: string)

  // ---------------------------------------------------------------- _format_plan

  /** Python's `repr` of one argument value. */
  function ValueRepr(v: Value): string {
    match v
    case NoneV => "None"
    case BoolV(b) => if b then "True" else "False"
    case IntV(i) => IntToString(i)
    case StrV(s) => "'" + s + "'"
  }

  /** Python's `str` of an argument dict: `{'key': value, ...}` in insertion order. */
  function ArgsRepr(args: Args): string {
    "{" + Join(seq(|args|, i requires 0 <= i < |args| => "'" + args[i].0 + "': " + ValueRepr(args[i].1)), ", ") + "}"
  }

  /** The line `_format_plan` writes for one step. */
  function StepLine(step: Step): string {
    IntToString(step.id) + ". " + step.action + " " + ArgsRepr(step.args)
  }

  /** One line per step, in order, each written by `line`. */
  function StepLines(steps: seq<Step>, line: Step -> string): (lines: seq<string>)
    ensures |lines| == |steps|
    ensures forall i :: 0 <= i < |steps| ==> lines[i] == line(steps[i])
  {
    if steps == [] then [] else StepLines(steps[..|steps| - 1], line) + [line(steps[|steps| - 1])]
  }

  /** One more step adds its line at the end. */
  lemma StepLinesSnoc(steps: seq<Step>, i: nat, line: Step -> string)
    requires i < |steps|
    ensures StepLines(steps[..i + 1], line) == StepLines(steps[..i], line) + [line(steps[i])]
  {
    assert steps[..i + 1][..i] == steps[..i];
  }

  /** The lines of `_format_plan`: the task, then one line per step, in order. */
  function PlanLines(plan: Plan): seq<string> {
    ["Task: " + plan.task] + StepLines(plan.steps, StepLine)
  }

  /** `_format_plan`, over the plan its JSON text decodes to. */
  method FormatPlan(plan: Plan) returns (text: string)
    ensures text == Join(PlanLines(plan), "\n")
  {
    var steps := [];
    var i := 0;
    while i < |plan.steps|
      invariant 0 <= i <= |plan.steps|
      invariant steps == StepLines(plan.steps[..i], StepLine)
    {
      StepLinesSnoc(plan.steps, i, StepLine);
      steps := steps + [StepLine(plan.steps[i])];
      i := i + 1;
    }
    assert plan.steps[..i] == plan.steps;
    text := Join(["Task: " + plan.task] + steps, "\n");
  }

  /** When neither the task nor any argument holds a line break, the text
      splits back into exactly the task line and one line per step. */
  lemma FormatPlanLines(plan: Plan)
    requires forall i :: 0 <= i < |plan.steps| + 1 ==> '\n' !in PlanLines(plan)[i]
    ensures Split(Join(PlanLines(plan), "\n"), '\n') == PlanLines(plan)
    ensures |Split(Join(PlanLines(plan), "\n"), '\n')| == |plan.steps| + 1
  {
    SplitJoin(PlanLines(plan), '\n');
  }

  // ---------------------------------------------------------------- command handlers

  /** The authorization gate every handler starts with: `None` lets the
      handler go on; otherwise the handler stops with this reply, which is
      "Unauthorized: <reason>" when there is a chat to send it to. */
  function Gate(update: Update, settings: Settings): (r: Option<Reply>)
    ensures r.None? <==>
      && update.user.Some? && update.chat.Some?
      && AllowedUsers(settings).Ok? && update.user.value in AllowedUsers(settings).value
      && AllowedChats(settings).Ok? && update.chat.value in AllowedChats(settings).value
    ensures r.Some? && r.value.Say? ==> update.chat.Some? && |r.value.text| >= |"Unauthorized: "|
    ensures r == Some(NoReply) ==> update.chat.None?
    ensures IsAuthorized(update, settings).Err? ==> r == Some(Raised(IsAuthorized(update, settings).error))
    ensures IsAuthorized(update, settings).Ok? && !IsAuthorized(update, settings).value.ok ==>
      r == Some(if update.chat.Some? then Say("Unauthorized: " + IsAuthorized(update, settings).value.reason) else NoReply)
  {
    var auth := IsAuthorized(update, settings);
    if auth.Err? then Some(Raised(auth.error))
    else if !auth.value.ok then Some(if update.chat.Some? then Say("Unauthorized: " + auth.value.reason) else NoReply)
    else None
  }

  /** `do_command`: plan the joined arguments and store the plan as a new
      task awaiting approval; `freshId` stands for `uuid4()`. */
  method DoCommand(queue: TaskQueue, update: Update, settings: Settings, args: seq<string>,
                   ops: PlannerOps, freshId: string) returns (reply: Reply)
    requires queue.Valid()
    modifies queue
    ensures queue.Valid() && queue.clock == old(queue.clock)
    ensures Gate(update, settings).Some? ==> reply == Gate(update, settings).value && queue.tasks == old(queue.tasks)
    ensures Gate(update, settings).None? && args == [] ==>
      reply == Say("Usage: /do <task>") && queue.tasks == old(queue.tasks)
    ensures Gate(update, settings).None? && args != [] && freshId in old(queue.tasks) ==>
      reply == Raised(DuplicateIdError) && queue.tasks == old(queue.tasks)
    ensures Gate(update, settings).None? && args != [] && freshId !in old(queue.tasks) ==>
      var command := Join(args, " ");
      var plan := CreatePlan(command, [], ops);
      && queue.tasks == old(queue.tasks)[freshId := Task(freshId, update.chat.value, update.user.value, command, plan,
                                                         PendingApproval, queue.clock, queue.clock,
                                                         settings.taskTimeoutSeconds, None)]
      && reply == Say("Plan created for task_id=" + freshId + ". Use /approve " + freshId + " to execute.\n"
                      + Join(PlanLines(plan), "\n"))
  {
    var gate := Gate(update, settings);
    if gate.Some? {
      return gate.value;
    }
    if args == [] {
      return Say("Usage: /do <task>");
    }
    var command := Join(args, " ");
    var plan := CreatePlan(command, [], ops);
    var created := queue.CreateTask(update.chat.value, update.user.value, command, plan, settings.taskTimeoutSeconds, freshId);
    if created.Err? {
      return Raised(created.error);
    }
    var text := FormatPlan(plan);
    reply := Say("Plan created for task_id=" + created.value + ". Use /approve " + created.value + " to execute.\n" + text);
  }

  /** `approve_command`: queue the task named by the first argument if it is
      pending approval. */
  method ApproveCommand(queue: TaskQueue, update: Update, settings: Settings, args: seq<string>) returns (reply: Reply)
    requires queue.Valid()
    modifies queue
    ensures queue.Valid() && queue.clock == old(queue.clock)
    ensures Gate(update, settings).Some? ==> reply == Gate(update, settings).value && queue.tasks == old(queue.tasks)
    ensures Gate(update, settings).None? && args == [] ==>
      reply == Say("Usage: /approve <task_id>") && queue.tasks == old(queue.tasks)
    ensures Gate(update, settings).None? && args != [] ==>
      var id := args[0];
      var ok := id in old(queue.tasks) && old(queue.tasks)[id].status == PendingApproval;
      && queue.tasks == (if ok then SetStatus(old(queue.tasks), id, Queued, queue.clock) else old(queue.tasks))
      && reply == Say(if ok then "Task " + id + " approved and queued."
                      else "Task " + id + " not found or not pending approval.")
  {
    var gate := Gate(update, settings);
    if gate.Some? {
      return gate.value;
    }
    if args == [] {
      return Say("Usage: /approve <task_id>");
    }
    var id := args[0];
    var ok := queue.ApproveTask(id);
    if ok {
      reply := Say("Task " + id + " approved and queued.");
    } else {
      reply := Say("Task " + id + " not found or not pending approval.");
    }
  }

  /** `cancel_command`: cancel the task named by the first argument, whatever
      its status. */
  method CancelCommand(queue: TaskQueue, update: Update, settings: Settings, args: seq<string>) returns (reply: Reply)
    requires queue.Valid()
    modifies queue
    ensures queue.Valid() && queue.clock == old(queue.clock)
    ensures Gate(update, settings).Some? ==> reply == Gate(update, settings).value && queue.tasks == old(queue.tasks)
    ensures Gate(update, settings).None? && args == [] ==>
      reply == Say("Usage: /cancel <task_id>") && queue.tasks == old(queue.tasks)
    ensures Gate(update, settings).None? && args != [] ==>
      var id := args[0];
      && queue.tasks == (if id in old(queue.tasks) then SetStatus(old(queue.tasks), id, Cancelled, queue.clock) else old(queue.tasks))
      && reply == Say(if id in old(queue.tasks) then "Task " + id + " cancelled." else "Task " + id + " not found.")
  {
    var gate := Gate(update, settings);
    if gate.Some? {
      return gate.value;
    }
    if args == [] {
      return Say("Usage: /cancel <task_id>");
    }
    var id := args[0];
    var ok := queue.CancelTask(id);
    if ok {
      reply := Say("Task " + id + " cancelled.");
    } else {
      reply := Say("Task " + id + " not found.");
    }
  }

  // ---------------------------------------------------------------- _run_next_task

  /** When a `/cancel` of the claimed task is handled while the tick runs:
      not at all; between `next_queued` and `mark_running` (no `await`
      separates them, so only another process sharing the database file can
      cancel there); or during the run, just before the executor's
      cancellation poll number `poll` (a poll past the last one stands for a
      cancel after the run, before the result is recorded). */
  datatype CancelTiming = NoCancel | BeforeClaim | DuringRun(poll: nat)

  /** The ledger as poll `i` of the run sees it. */
  function LedgerAtPoll(running: map<string, Task>, id: string, cancel: CancelTiming, now: nat, i: nat): map<string, Task> {
    if cancel.DuringRun? && cancel.poll <= i && id in running then SetStatus(running, id, Cancelled, now) else running
  }

  /** `cancel_check`: the task still exists and reads `cancelled`. */
  function CancelCheck(running: map<string, Task>, id: string, cancel: CancelTiming, now: nat): nat -> bool {
    (i: nat) => IsCancelled(LedgerAtPoll(running, id, cancel, now, i), id)
  }

  /** The executor call of the tick: the claimed task's own plan and
      timeout, the registry's tools, and the world's clock and tool answers
      with `cancel_check` reading the ledger. */
  function TickJob<F>(running: map<string, Task>, id: string, tools: map<string, F>, auditDir: string,
                      world: Env, cancel: CancelTiming, now: nat): Job<F>
    requires id in running
  {
    Job(tools, auditDir, id, running[id].plan,
        Env(CancelCheck(running, id, cancel, now), world.clock, world.answer), running[id].timeoutSeconds)
  }

  /** The ledger once the run has returned. */
  function AfterRun(running: map<string, Task>, id: string, cancel: CancelTiming, now: nat): map<string, Task> {
    if cancel.DuringRun? && id in running then SetStatus(running, id, Cancelled, now) else running
  }

  /** `mark_done` with the report, or `mark_failed` with `str(exc)`. `sent`
      is how sending "completed" went: when it raises, the same `except`
      marks the just-completed task failed with that exception. */
  function Settle(tasks: map<string, Task>, id: string, outcome: Result<RunReport>, sent: Outcome, now: nat): map<string, Task> {
    if outcome.Ok? then
      var done := Finish(tasks, id, Completed, Report(outcome.value), now);
      if sent.Pass? then done else Finish(done, id, Failed, ErrorMessage(sent.error), now)
    else Finish(tasks, id, Failed, ErrorMessage(outcome.error), now)
  }

  /** The message the tick sends to the task's chat at the end. */
  function Notice(id: string, outcome: Result<RunReport>, sent: Outcome): string {
    if outcome.Ok? && sent.Pass? then "Task " + id + " completed."
    else "Task " + id + " failed: " + (if outcome.Ok? then sent.error else outcome.error)
  }

  /** `_run_next_task`. `picked` is what `next_queued` returned, `claimed`
      whether `mark_running` succeeded, and `notice` the final message. */
  method RunNextTask<F>(queue: TaskQueue, executor: TaskExecutor<F>, world: Env, cancel: CancelTiming, sent: Outcome)
    returns (picked: Option<string>, claimed: bool, notice: Option<string>)
    requires queue.Valid()
    modifies queue
    ensures queue.Valid() && queue.clock == old(queue.clock)
    // nothing to claim: the ledger is untouched
    ensures picked.None? ==> !claimed && notice.None? && queue.tasks == old(queue.tasks)
    ensures SomeRunning(old(queue.tasks)) ==> picked.None?
    ensures !SomeRunning(old(queue.tasks)) && picked.None? ==>
      forall id :: id in old(queue.tasks) ==> old(queue.tasks)[id].status != Queued
    // the oldest queued task is picked
    ensures picked.Some? ==>
      && !SomeRunning(old(queue.tasks))
      && picked.value in old(queue.tasks) && old(queue.tasks)[picked.value].status == Queued
      && forall id :: id in old(queue.tasks) && old(queue.tasks)[id].status == Queued ==>
           old(queue.tasks)[picked.value].createdAt <= old(queue.tasks)[id].createdAt
    // a cancel before the claim makes `mark_running` fail, and nothing runs
    ensures claimed <==> picked.Some? && !cancel.BeforeClaim?
    ensures picked.Some? && cancel.BeforeClaim? ==>
      notice.None? && queue.tasks == SetStatus(old(queue.tasks), picked.value, Cancelled, queue.clock)
    // a claimed task is run on its own plan and its outcome recorded
    ensures claimed ==>
      var running := SetStatus(old(queue.tasks), picked.value, Running, queue.clock);
      var job := TickJob(running, picked.value, executor.registry.tools, executor.auditDir, world, cancel, queue.clock);
      && queue.tasks == Settle(AfterRun(running, picked.value, cancel, queue.clock), picked.value, Execute(job).outcome, sent, queue.clock)
      && notice == Some(Notice(picked.value, Execute(job).outcome, sent))
    // the tick never leaves a running task behind, nor two
    ensures !SomeRunning(old(queue.tasks)) ==> !SomeRunning(queue.tasks)
    ensures AtMostOneRunning(old(queue.tasks)) ==> AtMostOneRunning(queue.tasks)
  {
    picked, claimed, notice := None, false, None;
    var next := queue.NextQueued();
    if next.None? {
      return;
    }
    var task := next.value;
    picked := Some(task.taskId);
    if cancel.BeforeClaim? {
      var cancelled := queue.CancelTask(task.taskId);
      StatusUpdatesKeepOneRunning(old(queue.tasks), task.taskId, Cancelled, queue.clock);
    }
    var ok := queue.MarkRunning(task.taskId);
    if !ok {
      return;
    }
    claimed := true;
    var text := RunClaimed(queue, executor, task.taskId, world, cancel, sent);
    notice := Some(text);
    TickSettles(old(queue.tasks), task.taskId, cancel, Execute(TickJob(SetStatus(old(queue.tasks), task.taskId, Running, queue.clock),
      task.taskId, executor.registry.tools, executor.auditDir, world, cancel, queue.clock)).outcome, sent, queue.clock);
  }

  /** The second half of `_run_next_task`: run the claimed task, let a
      `/cancel` land, then `mark_done` or `mark_failed` and the final message. */
  method RunClaimed<F>(queue: TaskQueue, executor: TaskExecutor<F>, id: string, world: Env, cancel: CancelTiming,
                       sent: Outcome)
    returns (notice: string)
    requires queue.Valid() && id in queue.tasks && queue.tasks[id].status == Running
    modifies queue
    ensures queue.Valid() && queue.clock == old(queue.clock)
    ensures var job := TickJob(old(queue.tasks), id, executor.registry.tools, executor.auditDir, world, cancel, queue.clock);
      && queue.tasks == Settle(AfterRun(old(queue.tasks), id, cancel, queue.clock), id, Execute(job).outcome, sent, queue.clock)
      && notice == Notice(id, Execute(job).outcome, sent)
  {
    var task := queue.tasks[id];
    var check := CancelCheck(queue.tasks, id, cancel, queue.clock);
    var outcome, effects := executor.ExecutePlan(id, task.plan, Env(check, world.clock, world.answer), task.timeoutSeconds);
    if cancel.DuringRun? {
      var cancelled := queue.CancelTask(id);
    }
    if outcome.Ok? {
      queue.MarkDone(id, outcome.value);
      if sent.Pass? {
        notice := "Task " + id + " completed.";
      } else {
        queue.MarkFailed(id, sent.error);
        notice := "Task " + id + " failed: " + sent.error;
      }
    } else {
      queue.MarkFailed(id, outcome.error);
      notice := "Task " + id + " failed: " + outcome.error;
    }
  }

  // ---------------------------------------------------------------- properties of the tick

  /** After a claimed run, the claimed task is completed or failed with its
      result attached, and every other task is as before the tick; so no
      task is left running. */
  lemma {:induction false} TickSettles(before: map<string, Task>, id: string, cancel: CancelTiming,
                                       outcome: Result<RunReport>, sent: Outcome, now: nat)
    requires id in before && !SomeRunning(before)
    ensures var after := Settle(AfterRun(SetStatus(before, id, Running, now), id, cancel, now), id, outcome, sent, now);
      && after.Keys == before.Keys
      && after[id].status == (if outcome.Ok? && sent.Pass? then Completed else Failed)
      && after[id].result == Some(if outcome.Err? then ErrorMessage(outcome.error)
                                  else if sent.Fail? then ErrorMessage(sent.error)
                                  else Report(outcome.value))
      && (forall other :: other in before && other != id ==> after[other] == before[other])
      && !SomeRunning(after)
  {
    var after := Settle(AfterRun(SetStatus(before, id, Running, now), id, cancel, now), id, outcome, sent, now);
    forall other | other in after
      ensures after[other].status != Running
    {
      if other != id {
        assert after[other] == before[other];
      }
    }
  }

  /** `cancel_check` answers true exactly from the poll the `/cancel` lands
      before, while the task is running. */
  lemma PollSeesCancel(running: map<string, Task>, id: string, cancel: CancelTiming, now: nat, i: nat)
    requires id in running && running[id].status == Running
    ensures CancelCheck(running, id, cancel, now)(i) <==> cancel.DuringRun? && cancel.poll <= i
  {
    if cancel.DuringRun? && cancel.poll <= i {
      assert LedgerAtPoll(running, id, cancel, now, i)[id].status == Cancelled;
    } else {
      assert LedgerAtPoll(running, id, cancel, now, i) == running;
    }
  }

  /** A task cancelled while it runs, before its last step, ends `failed`:
      the run raises, and "Task cancelled" is the error when no earlier step
      failed. */
  lemma CancelledRunFails<F>(running: map<string, Task>, id: string, tools: map<string, F>, auditDir: string,
                             world: Env, cancel: CancelTiming, sent: Outcome, now: nat)
    requires id in running && running[id].status == Running
    requires cancel.DuringRun? && cancel.poll < |running[id].plan.steps|
    ensures var job := TickJob(running, id, tools, auditDir, world, cancel, now);
      && Execute(job).outcome.Err?
      && (AllOk(Outs(job), 0, cancel.poll) ==> Execute(job).outcome.error == "Task cancelled")
      && Settle(AfterRun(running, id, cancel, now), id, Execute(job).outcome, sent, now)[id].status == Failed
  {
    var job := TickJob(running, id, tools, auditDir, world, cancel, now);
    PollSeesCancel(running, id, cancel, now, cancel.poll);
    StepChecks(job, cancel.poll);
    RunSucceeds(job);
    if AllOk(Outs(job), 0, cancel.poll) {
      RunFailsAt(job, cancel.poll);
    }
  }
}
