/** The plan executor and its tool registry (telegram_agent/app/executor.py).
    Tools are opaque values of a type `F`; whatever the outside world does
    (a tool's return value or exception, `cancel_check()`, `time.monotonic()`,
    the error screenshot) is an answer read from an `Env`, and every effect on
    the outside world is recorded, in order, as an `Effect`. */
module Executor {
  import opened Wrappers
  import opened Plans
  import opened Text

  /** The arguments of one call: positional values, then `**kwargs`. */
  datatype Call = Call(positional: seq<Value>, keywords: Args)

  /** One effect of a run on the outside world. */
  datatype Effect<F> =
    | OpenLog(logPath: string)                       // logger.add(<audit_dir>/<task_id>.log)
    | SendUpdate(text: string)                       // send_update(...)
    | SendPhoto(photo: Value)                        // send_photo(...)
    | Invoke(action: string, tool: F, call: Call)    // the registered tool of `action` is called
    | CaptureError(auditDir: string, taskId: string) // screen.capture_screen(audit_dir, task_id, "error")
    | Note(message: Value)                           // logger.info("NOTE: ...")
    | CloseLog                                       // logger.remove(log_id)

  /** What the outside world answers during a run:
      `cancelled(i)` is `cancel_check()` before step i;
      `clock(0)` is the start time and `clock(i + 1)` the reading before step i;
      `answer(i, 0)` is the result or exception (`str(exc)`) of step i's tool
      call, and `answer(i, 1)` that of step i's error screenshot. A step makes
      at most these two calls, so this covers every possible behaviour. */
  datatype Env = Env(cancelled: nat -> bool, clock: nat -> nat, answer: (nat, nat) -> Result<Value>)

  /** One `execute_plan` call: the registry's contents, the executor's audit
      directory, the task id, its plan, the world, and `timeout_seconds`. */
  datatype Job<F> = Job(tools: map<string, F>, auditDir: string, taskId: string, plan: Plan, env: Env, timeout: int)

  /** What a step, or a whole run, produced: a value or `str(exc)`, and its effects. */
  datatype StepOut<F> = StepOut(outcome: Result<Args>, effects: seq<Effect<F>>)
  datatype Run<F> = Run(outcome: Result<seq<Args>>, effects: seq<Effect<F>>)
  datatype RunOut<F> = RunOut(outcome: Result<RunReport>, effects: seq<Effect<F>>)

  /** The actions whose failure triggers an error screenshot. */
  predicate IsUiaClick(action: string) {
    action in {"uia.click_text", "uia.click_automation_id", "uia.click_path"}
  }

  /** `step.args[key]`: a missing key raises `KeyError`, whose `str` is the quoted key. */
  function Required(args: Args, key: string): Result<Value> {
    match Lookup(args, key)
    case Some(v) => Ok(v)
    case None => Err("'" + key + "'")
  }

  /** `args.get(key, default)`. */
  function LookupOr(args: Args, key: string, default: Value): Value {
    if Lookup(args, key).Some? then Lookup(args, key).value else default
  }

  /** Any effect that calls a tool calls `tool` for `action`. */
  ghost predicate OnlyInvokes<F>(effects: seq<Effect<F>>, action: string, tool: F) {
    forall e :: e in effects && e.Invoke? ==> e.action == action && e.tool == tool
  }

  /** `_execute_with_error_screenshot`: call the tool with `**args`; on an
      exception take one error screenshot, send it, and raise
      "<action> failed: <exc>". An exception of the screenshot itself escapes
      in place of that message. */
  function WithErrorScreenshot<F>(action: string, tool: F, args: Args, auditDir: string, taskId: string,
                                  reply: Result<Value>, captureReply: Result<Value>, record: Args): (r: StepOut<F>)
    ensures |r.effects| >= 1 && r.effects[0] == Invoke(action, tool, Call([], args))
    ensures r.outcome.Ok? <==> reply.Ok?
    ensures reply.Ok? ==> r == StepOut(Ok(record), [Invoke(action, tool, Call([], args))])
    ensures reply.Err? ==> |r.effects| >= 2 && r.effects[1] == CaptureError(auditDir, taskId)
    ensures reply.Err? && captureReply.Ok? ==>
      && r.outcome == Err(action + " failed: " + reply.error)
      && r.effects[2..] == [SendPhoto(captureReply.value)]
    ensures reply.Err? && captureReply.Err? ==> r.outcome == Err(captureReply.error) && |r.effects| == 2
    ensures OnlyInvokes(r.effects, action, tool)
  {
    var call := Invoke(action, tool, Call([], args));
    if reply.Ok? then StepOut(Ok(record), [call])
    else if captureReply.Err? then StepOut(Err(captureReply.error), [call, CaptureError(auditDir, taskId)])
    else StepOut(Err(action + " failed: " + reply.error), [call, CaptureError(auditDir, taskId), SendPhoto(captureReply.value)])
  }

  /** The per-action branch of the loop body: how step `step` uses its tool,
      and the result record `{"step": id, "action": action, ...}` it adds.
      Its properties are the `Dispatch...` lemmas below. */
  function Dispatch<F>(step: Step, tool: F, auditDir: string, taskId: string,
                       reply: Result<Value>, captureReply: Result<Value>): StepOut<F>
  {
    var record := RecordHead(step);
    var action := step.action;
    if action == "screen.capture" then
      var shotLabel := LookupOr(step.args, "label", StrV("step"));
      var call := Invoke(action, tool, Call([StrV(auditDir), StrV(taskId), shotLabel], []));
      if reply.Err? then StepOut(Err(reply.error), [call])
      else StepOut(Ok(record + [("screenshot", reply.value)]), [call, SendPhoto(reply.value)])
    else if action == "input.click" then
      var x := Required(step.args, "x");
      var y := Required(step.args, "y");
      if x.Err? then StepOut(Err(x.error), [])
      else if y.Err? then StepOut(Err(y.error), [])
      else
        var call := Invoke(action, tool, Call([x.value, y.value], []));
        if reply.Err? then StepOut(Err(reply.error), [call]) else StepOut(Ok(record), [call])
    else if action == "input.type" then
      var text := Required(step.args, "text");
      if text.Err? then StepOut(Err(text.error), [])
      else
        var call := Invoke(action, tool, Call([text.value], []));
        if reply.Err? then StepOut(Err(reply.error), [call]) else StepOut(Ok(record), [call])
    else if action == "uia.focus_window" then
      var title := Required(step.args, "title_substring");
      if title.Err? then StepOut(Err(title.error), [])
      else
        var call := Invoke(action, tool, Call([title.value], []));
        if reply.Err? then StepOut(Err(reply.error), [call])
        else StepOut(Ok(record + [("focused", reply.value)]), [call])
    else if IsUiaClick(action) then
      WithErrorScreenshot(action, tool, step.args, auditDir, taskId, reply, captureReply, record)
    else if action == "log.note" then
      var message := LookupOr(step.args, "message", StrV(""));
      StepOut(Ok(record), [Note(message)])
    else
      var call := Invoke(action, tool, Call([], step.args));
      if reply.Err? then StepOut(Err(reply.error), [call]) else StepOut(Ok(record), [call])
  }

  /** The text `send_update` receives before step `step` runs. */
  function UpdateText(step: Step): string {
    "Executing step " + IntToString(step.id) + ": " + step.action
  }

  /** The checks passed before step i: not cancelled, within the timeout
      (elapsed time strictly greater times out), and an allowed action. */
  predicate Admitted<F>(job: Job<F>, i: nat)
    requires i < |job.plan.steps|
  {
    && !job.env.cancelled(i)
    && !(job.env.clock(i + 1) - job.env.clock(0) > job.timeout)
    && job.plan.steps[i].action in job.tools
  }

  /** One turn of the `for step in steps` loop; its properties are the
      `Step...` lemmas below. */
  function RunStep<F>(job: Job<F>, i: nat): StepOut<F>
    requires i < |job.plan.steps|
  {
    var step := job.plan.steps[i];
    if job.env.cancelled(i) then StepOut(Err("Task cancelled"), [])
    else if job.env.clock(i + 1) - job.env.clock(0) > job.timeout then StepOut(Err("Task timeout reached"), [])
    else if step.action !in job.tools then StepOut(Err("Tool not allowed: " + step.action), [])
    else
      var out := Dispatch(step, job.tools[step.action], job.auditDir, job.taskId, job.env.answer(i, 0), job.env.answer(i, 1));
      StepOut(out.outcome, [SendUpdate(UpdateText(step))] + out.effects)
  }

  /** The outcome and effects of each step, taken on its own. */
  function Outs<F>(job: Job<F>): (outs: seq<StepOut<F>>)
    ensures |outs| == |job.plan.steps|
  {
    seq(|job.plan.steps|, i requires 0 <= i < |job.plan.steps| => RunStep(job, i))
  }

  /** The loop from step i on, given the records and effects so far: the
      first failing step ends it, and its records are discarded. */
  function Loop<F>(outs: seq<StepOut<F>>, i: nat, records: seq<Args>, effects: seq<Effect<F>>): Run<F>
    decreases |outs| - i
  {
    if i >= |outs| then Run(Ok(records), effects)
    else if outs[i].outcome.Err? then Run(Err(outs[i].outcome.error), effects + outs[i].effects)
    else Loop(outs, i + 1, records + [outs[i].outcome.value], effects + outs[i].effects)
  }

  function LogPath(auditDir: string, taskId: string): string {
    auditDir + "/" + taskId + ".log"
  }

  /** `execute_plan`: open the audit log, run the loop, remove the log
      handler whatever happened, return `{"task", "steps"}` or raise. */
  function Execute<F>(job: Job<F>): RunOut<F> {
    var run := Loop(Outs(job), 0, [], [OpenLog(LogPath(job.auditDir, job.taskId))]);
    RunOut(if run.outcome.Ok? then Ok(RunReport(job.plan.task, run.outcome.value)) else Err(run.outcome.error),
           run.effects + [CloseLog])
  }

  // ---------------------------------------------------------------- properties of one step

  /** The record a successful step adds. */
  function RecordHead(step: Step): Args {
    [("step", IntV(step.id)), ("action", StrV(step.action))]
  }

  /** `dict[key]` after `dict[key] = v` on a dict without `key`. */
  lemma {:induction false} LookupAppended(args: Args, key: string, v: Value)
    requires forall i :: 0 <= i < |args| ==> args[i].0 != key
    ensures Lookup(args + [(key, v)], key) == Some(v)
  {
    if |args| > 0 {
      LookupAppended(args[1..], key, v);
      assert (args + [(key, v)])[1..] == args[1..] + [(key, v)];
    }
  }

  /** A successful step's record starts with its id and action, and a step
      only calls the tool it was given, under its own action name. */
  lemma DispatchRecord<F>(step: Step, tool: F, auditDir: string, taskId: string, reply: Result<Value>, captureReply: Result<Value>)
    ensures var r := Dispatch(step, tool, auditDir, taskId, reply, captureReply);
      && (r.outcome.Ok? ==> |r.outcome.value| >= 2 && r.outcome.value[..2] == RecordHead(step))
      && OnlyInvokes(r.effects, step.action, tool)
  {
  }

  /** `screen.capture` calls its tool with the audit directory, the task id
      and the step's label (default "step"), records the returned path as
      `screenshot` and sends it once. */
  lemma DispatchCapture<F>(step: Step, tool: F, auditDir: string, taskId: string, reply: Result<Value>, captureReply: Result<Value>)
    requires step.action == "screen.capture" && reply.Ok?
    ensures var r := Dispatch(step, tool, auditDir, taskId, reply, captureReply);
      && r.outcome.Ok? && Lookup(r.outcome.value, "screenshot") == Some(reply.value)
      && r.effects == [Invoke(step.action, tool, Call([StrV(auditDir), StrV(taskId), LookupOr(step.args, "label", StrV("step"))], [])),
                       SendPhoto(reply.value)]
  {
    LookupAppended(RecordHead(step), "screenshot", reply.value);
  }

  /** `uia.focus_window` records the tool's answer as `focused`. */
  lemma DispatchFocus<F>(step: Step, tool: F, auditDir: string, taskId: string, reply: Result<Value>, captureReply: Result<Value>)
    requires step.action == "uia.focus_window"
    ensures var r := Dispatch(step, tool, auditDir, taskId, reply, captureReply);
      r.outcome.Ok? <==> reply.Ok? && Lookup(step.args, "title_substring").Some?
    ensures var r := Dispatch(step, tool, auditDir, taskId, reply, captureReply);
      r.outcome.Ok? ==> Lookup(r.outcome.value, "focused") == Some(reply.value)
  {
    if reply.Ok? {
      LookupAppended(RecordHead(step), "focused", reply.value);
    }
  }

  /** `log.note` never fails and never calls its registered tool; it only
      writes the message (default "") to the log. */
  lemma DispatchNote<F>(step: Step, tool: F, auditDir: string, taskId: string, reply: Result<Value>, captureReply: Result<Value>)
    requires step.action == "log.note"
    ensures Dispatch(step, tool, auditDir, taskId, reply, captureReply)
         == StepOut(Ok(RecordHead(step)), [Note(LookupOr(step.args, "message", StrV("")))])
    ensures forall e :: e in Dispatch(step, tool, auditDir, taskId, reply, captureReply).effects ==> !e.Invoke?
  {
  }

  /** A failing UIA click takes one error screenshot, sends it, and raises
      "<action> failed: <exc>"; a successful one just records the step. */
  lemma DispatchUiaClick<F>(step: Step, tool: F, auditDir: string, taskId: string, reply: Result<Value>, captureReply: Result<Value>)
    requires IsUiaClick(step.action)
    ensures Dispatch(step, tool, auditDir, taskId, reply, captureReply)
         == WithErrorScreenshot(step.action, tool, step.args, auditDir, taskId, reply, captureReply, RecordHead(step))
    ensures reply.Err? && captureReply.Ok? ==>
      Dispatch(step, tool, auditDir, taskId, reply, captureReply)
      == StepOut(Err(step.action + " failed: " + reply.error),
                 [Invoke(step.action, tool, Call([], step.args)), CaptureError(auditDir, taskId), SendPhoto(captureReply.value)])
  {
  }

  /** Any other action's failure is the tool's own exception, unchanged, or
      the `KeyError` of an argument the step lacks; no screenshot is taken. */
  lemma DispatchPropagates<F>(step: Step, tool: F, auditDir: string, taskId: string, reply: Result<Value>, captureReply: Result<Value>)
    requires !IsUiaClick(step.action) && step.action != "log.note"
    ensures var r := Dispatch(step, tool, auditDir, taskId, reply, captureReply);
      r.outcome.Err? ==>
        || (reply.Err? && r.outcome.error == reply.error)
        || (exists key :: r.outcome.error == "'" + key + "'" && Lookup(step.args, key).None?)
    ensures var r := Dispatch(step, tool, auditDir, taskId, reply, captureReply);
      forall e :: e in r.effects ==> !e.CaptureError?
  {
  }

  /** Before a step touches anything, cancellation is checked first, then the
      timeout, then the allow-list; a step stopped by any of them has no
      effect, and an admitted step announces itself first. */
  lemma StepChecks<F>(job: Job<F>, i: nat)
    requires i < |job.plan.steps|
    ensures job.env.cancelled(i) ==> RunStep(job, i) == StepOut(Err("Task cancelled"), [])
    ensures !job.env.cancelled(i) && job.env.clock(i + 1) - job.env.clock(0) > job.timeout ==>
      RunStep(job, i) == StepOut(Err("Task timeout reached"), [])
    ensures (!job.env.cancelled(i) && !(job.env.clock(i + 1) - job.env.clock(0) > job.timeout)
      && job.plan.steps[i].action !in job.tools) ==>
      RunStep(job, i) == StepOut(Err("Tool not allowed: " + job.plan.steps[i].action), [])
    ensures Admitted(job, i) ==>
      |RunStep(job, i).effects| >= 1 && RunStep(job, i).effects[0] == SendUpdate(UpdateText(job.plan.steps[i]))
  {
  }

  /** A step succeeds only when admitted, and its record starts with its id
      and action; every tool it calls is the registered one for its name. */
  lemma StepRecord<F>(job: Job<F>, i: nat)
    requires i < |job.plan.steps|
    ensures RunStep(job, i).outcome.Ok? ==>
      && Admitted(job, i)
      && |RunStep(job, i).outcome.value| >= 2
      && RunStep(job, i).outcome.value[..2] == RecordHead(job.plan.steps[i])
    ensures forall e :: e in RunStep(job, i).effects && e.Invoke? ==> e.action in job.tools && e.tool == job.tools[e.action]
  {
    if Admitted(job, i) {
      var step := job.plan.steps[i];
      DispatchRecord(step, job.tools[step.action], job.auditDir, job.taskId, job.env.answer(i, 0), job.env.answer(i, 1));
    }
  }

  // ---------------------------------------------------------------- the registry and the executor

  /** `ToolRegistry`: the allow-list, a dict from action name to tool. */
  class ToolRegistry<F> {
    var tools: map<string, F>

    constructor ()
      ensures tools == map[]
    {
      tools := map[];
    }

    /** `register`: adds the tool, or replaces the one of that name. */
    method Register(name: string, tool: F)
      modifies this
      ensures tools == old(tools)[name := tool]
    {
      tools := tools[name := tool];
    }

    /** `get`: the tool of that name, or `None` when it is not allowed. */
    function Get(name: string): (r: Option<F>)
      reads this
      ensures r.Some? <==> name in tools
      ensures r.Some? ==> r.value == tools[name]
    {
      if name in tools then Some(tools[name]) else None
    }
  }

  /** `test_tool_registry_allows_registered_tool`, with a re-registration:
      a registered tool is returned, the newest registration wins, and an
      unregistered name gives nothing. */
  method RegisterThenGet<F>(tool: F, other: F) returns (got: Option<F>, missing: Option<F>, replaced: Option<F>)
    ensures got == Some(tool) && missing == None && replaced == Some(other)
  {
    var registry := new ToolRegistry<F>();
    registry.Register("dummy", tool);
    got := registry.Get("dummy");
    missing := registry.Get("missing");
    registry.Register("dummy", other);
    replaced := registry.Get("dummy");
  }

  /** The tools of `default_tool_registry`. */
  datatype Tool = CaptureScreen | Click | TypeText | FocusWindow | Dump | ClickText | ClickAutomationId | ClickPath | NoteLogger

  /** `default_tool_registry`: the nine allowed actions. */
  method DefaultToolRegistry() returns (registry: ToolRegistry<Tool>)
    ensures fresh(registry)
    ensures registry.tools == map[
      "screen.capture" := CaptureScreen, "input.click" := Click, "input.type" := TypeText,
      "uia.focus_window" := FocusWindow, "uia.dump" := Dump, "uia.click_text" := ClickText,
      "uia.click_automation_id" := ClickAutomationId, "uia.click_path" := ClickPath, "log.note" := NoteLogger]
  {
    registry := new ToolRegistry<Tool>();
    registry.Register("screen.capture", CaptureScreen);
    registry.Register("input.click", Click);
    registry.Register("input.type", TypeText);
    registry.Register("uia.focus_window", FocusWindow);
    registry.Register("uia.dump", Dump);
    registry.Register("uia.click_text", ClickText);
    registry.Register("uia.click_automation_id", ClickAutomationId);
    registry.Register("uia.click_path", ClickPath);
    registry.Register("log.note", NoteLogger);
  }

  class TaskExecutor<F> {
    const auditDir: string
    const registry: ToolRegistry<F>

    constructor (auditDir: string, registry: ToolRegistry<F>)
      ensures this.auditDir == auditDir && this.registry == registry
    {
      this.auditDir := auditDir;
      this.registry := registry;
    }

    /** `execute_plan` over an already parsed plan. */
    method ExecutePlan(taskId: string, plan: Plan, env: Env, timeoutSeconds: int)
      returns (outcome: Result<RunReport>, effects: seq<Effect<F>>)
      ensures RunOut(outcome, effects) == Execute(Job(registry.tools, auditDir, taskId, plan, env, timeoutSeconds))
    {
      ghost var job := Job(registry.tools, auditDir, taskId, plan, env, timeoutSeconds);
      ghost var outs := Outs(job);
      effects := [OpenLog(LogPath(auditDir, taskId))];
      var startedAt := env.clock(0);
      var results: seq<Args> := [];
      var failure: Option<string> := None;
      var i := 0;
      while i < |plan.steps| && failure.None?
        invariant 0 <= i <= |plan.steps|
        invariant failure.None? ==> Loop(outs, i, results, effects) == Loop(outs, 0, [], [OpenLog(LogPath(auditDir, taskId))])
        invariant failure.Some? ==> Run(Err(failure.value), effects) == Loop(outs, 0, [], [OpenLog(LogPath(auditDir, taskId))])
        decreases |plan.steps| - i
      {
        var step := plan.steps[i];
        if env.cancelled(i) {
          failure := Some("Task cancelled");
        } else if env.clock(i + 1) - startedAt > timeoutSeconds {
          failure := Some("Task timeout reached");
        } else {
          var tool := registry.Get(step.action);
          if tool.None? {
            failure := Some("Tool not allowed: " + step.action);
          } else {
            var out := Dispatch(step, tool.value, auditDir, taskId, env.answer(i, 0), env.answer(i, 1));
            assert RunStep(job, i) == StepOut(out.outcome, [SendUpdate(UpdateText(step))] + out.effects);
            effects := effects + ([SendUpdate(UpdateText(step))] + out.effects);
            if out.outcome.Err? {
              failure := Some(out.outcome.error);
            } else {
              results := results + [out.outcome.value];
            }
          }
        }
        i := i + 1;
      }
      effects := effects + [CloseLog];
      outcome := if failure.Some? then Err(failure.value) else Ok(RunReport(plan.task, results));
    }
  }

  // ---------------------------------------------------------------- properties of a run

  /** Steps i..j all succeed. */
  predicate AllOk<F>(outs: seq<StepOut<F>>, i: nat, j: nat)
    requires j <= |outs|
  {
    forall k :: i <= k < j ==> outs[k].outcome.Ok?
  }

  /** The effects of steps i..j, in order. */
  function EffectsBetween<F>(outs: seq<StepOut<F>>, i: nat, j: nat): seq<Effect<F>>
    requires j <= |outs|
    decreases j - i
  {
    if i >= j then [] else outs[i].effects + EffectsBetween(outs, i + 1, j)
  }

  /** The records of steps i..j, in order, when they all succeed. */
  function RecordsBetween<F>(outs: seq<StepOut<F>>, i: nat, j: nat): (r: seq<Args>)
    requires j <= |outs| && AllOk(outs, i, j)
    ensures |r| == if i <= j then j - i else 0
    decreases j - i
  {
    if i >= j then [] else [outs[i].outcome.value] + RecordsBetween(outs, i + 1, j)
  }

  /** Steps that all succeed just add their records and effects. */
  lemma {:induction false} RunThrough<F>(outs: seq<StepOut<F>>, i: nat, j: nat, records: seq<Args>, effects: seq<Effect<F>>)
    requires i <= j <= |outs| && AllOk(outs, i, j)
    ensures Loop(outs, i, records, effects)
         == Loop(outs, j, records + RecordsBetween(outs, i, j), effects + EffectsBetween(outs, i, j))
    decreases j - i
  {
    if i < j {
      var out := outs[i];
      RunThrough(outs, i + 1, j, records + [out.outcome.value], effects + out.effects);
      assert records + [out.outcome.value] + RecordsBetween(outs, i + 1, j) == records + RecordsBetween(outs, i, j);
      assert effects + out.effects + EffectsBetween(outs, i + 1, j) == effects + EffectsBetween(outs, i, j);
    } else {
      assert records + RecordsBetween(outs, i, j) == records;
      assert effects + EffectsBetween(outs, i, j) == effects;
    }
  }

  /** A failing step has a first failing step. */
  lemma {:induction false} FirstFailure<F>(outs: seq<StepOut<F>>, k: nat)
    requires k < |outs| && outs[k].outcome.Err?
    ensures exists j: nat :: j <= k && AllOk(outs, 0, j) && outs[j].outcome.Err?
    decreases k
  {
    if !AllOk(outs, 0, k) {
      var k' :| 0 <= k' < k && outs[k'].outcome.Err?;
      FirstFailure(outs, k');
    }
  }

  /** A run completes iff every step succeeds; it then returns the plan's task
      and one record per step, in plan order, and its effects are the steps'
      effects between opening and closing the audit log. */
  lemma RunSucceeds<F>(job: Job<F>)
    ensures Execute(job).outcome.Ok? <==> AllOk(Outs(job), 0, |job.plan.steps|)
    ensures AllOk(Outs(job), 0, |job.plan.steps|) ==>
      && Execute(job).outcome.value == RunReport(job.plan.task, RecordsBetween(Outs(job), 0, |job.plan.steps|))
      && Execute(job).effects
         == [OpenLog(LogPath(job.auditDir, job.taskId))] + EffectsBetween(Outs(job), 0, |job.plan.steps|) + [CloseLog]
  {
    var outs := Outs(job);
    var n := |job.plan.steps|;
    var open := [OpenLog(LogPath(job.auditDir, job.taskId))];
    if AllOk(outs, 0, n) {
      RunThrough(outs, 0, n, [], open);
      assert [] + RecordsBetween(outs, 0, n) == RecordsBetween(outs, 0, n);
    } else {
      var k :| 0 <= k < n && outs[k].outcome.Err?;
      FirstFailure(outs, k);
      var j: nat :| j <= k && AllOk(outs, 0, j) && outs[j].outcome.Err?;
      RunFailsAt(job, j);
    }
  }

  /** When steps before j succeed and step j fails, the run raises step j's
      error; the trace holds nothing of any later step, and the audit log is
      still closed. */
  lemma RunFailsAt<F>(job: Job<F>, j: nat)
    requires j < |job.plan.steps| && AllOk(Outs(job), 0, j) && RunStep(job, j).outcome.Err?
    ensures Execute(job).outcome == Err(RunStep(job, j).outcome.error)
    ensures Execute(job).effects
         == [OpenLog(LogPath(job.auditDir, job.taskId))] + EffectsBetween(Outs(job), 0, j) + RunStep(job, j).effects + [CloseLog]
  {
    RunThrough(Outs(job), 0, j, [], [OpenLog(LogPath(job.auditDir, job.taskId))]);
  }

  /** The records of a completed stretch are the steps' values, in order. */
  lemma {:induction false} RecordsAre<F>(outs: seq<StepOut<F>>, i: nat, j: nat)
    requires i <= j <= |outs| && AllOk(outs, i, j)
    ensures forall k :: 0 <= k < j - i ==> RecordsBetween(outs, i, j)[k] == outs[i + k].outcome.value
    decreases j - i
  {
    if i < j {
      var r := RecordsBetween(outs, i, j);
      var rest := RecordsBetween(outs, i + 1, j);
      assert r == [outs[i].outcome.value] + rest;
      RecordsAre(outs, i + 1, j);
      forall k | 0 <= k < j - i
        ensures r[k] == outs[i + k].outcome.value
      {
        if k > 0 {
          assert r[k] == rest[k - 1];
          assert i + k == (i + 1) + (k - 1);
        }
      }
    }
  }

  /** The record of a successful step starts with its id and action. */
  lemma OutRecord<F>(job: Job<F>, k: nat)
    requires k < |job.plan.steps| && Outs(job)[k].outcome.Ok?
    ensures |Outs(job)[k].outcome.value| >= 2 && Outs(job)[k].outcome.value[..2] == RecordHead(job.plan.steps[k])
  {
    assert Outs(job)[k] == RunStep(job, k);
    StepRecord(job, k);
  }

  /** Every record of a completed run starts with its step's id and action. */
  lemma RecordsMatchSteps<F>(job: Job<F>, i: nat, j: nat)
    requires i <= j <= |job.plan.steps| && AllOk(Outs(job), i, j)
    ensures forall k :: 0 <= k < j - i ==>
      |RecordsBetween(Outs(job), i, j)[k]| >= 2 && RecordsBetween(Outs(job), i, j)[k][..2] == RecordHead(job.plan.steps[i + k])
  {
    RecordsAre(Outs(job), i, j);
    forall k | 0 <= k < j - i
      ensures |RecordsBetween(Outs(job), i, j)[k]| >= 2
      ensures RecordsBetween(Outs(job), i, j)[k][..2] == RecordHead(job.plan.steps[i + k])
    {
      OutRecord(job, i + k);
    }
  }

  /** No effect of a run calls a tool other than the registered one for its
      action name. */
  lemma {:induction false} InvokesOnlyRegistered<F>(job: Job<F>, i: nat, j: nat)
    requires j <= |job.plan.steps|
    ensures forall e :: e in EffectsBetween(Outs(job), i, j) && e.Invoke? ==> e.action in job.tools && e.tool == job.tools[e.action]
    decreases j - i
  {
    if i < j {
      InvokesOnlyRegistered(job, i + 1, j);
      StepRecord(job, i);
    }
  }

  /** A plan whose first step is polled as cancelled does nothing but open
      and close the audit log. */
  lemma CancelledBeforeFirstStep<F>(job: Job<F>)
    requires |job.plan.steps| > 0 && job.env.cancelled(0)
    ensures Execute(job) == RunOut(Err("Task cancelled"), [OpenLog(LogPath(job.auditDir, job.taskId)), CloseLog])
  {
    assert Outs(job)[0] == RunStep(job, 0);
  }
}
