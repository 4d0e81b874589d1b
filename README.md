# Telegram desktop agent: a verified model of its core

The agent is a Telegram bot that turns a chat command such as
`/do click_text Submit` into a plan of desktop-automation steps. It keeps each
task in a SQLite ledger until the user approves it, then runs it from a
periodic tick. The runner enforces an allow-list of tools, cancellation,
timeouts and an audit log.

This project models that core in Dafny and proves what it promises:

- `Ledger` models the task ledger (`queue.py`). It is a class over a map
  from task id to row, with the status machine
  `pending_approval → queued → running → completed | failed`, plus
  `cancelled`.
- `Plans` models `create_plan` (`planner.py`) over abstract
  regular-expression helpers.
- `Executor` models the tool registry and `execute_plan`
  (`executor.py`): a loop method proved against a pure function of the
  plan and of what the outside world answers.
- `Bot` models the `/do`, `/approve` and `/cancel` handlers,
  `_format_plan` and `_run_next_task` (`bot.py`). A `/cancel` that races
  with the tick is modelled by when it lands.
- `Config` and `Auth` model the id-list parsing of `settings.py` and
  `is_authorized` (`auth.py`).
- `Input` and `Uia` model the argument checks of the input tools and the
  `dump`, `click_path` and `focus_window` walks of the UI Automation
  tools (`tools/input.py`, `tools/uia.py`). The walks run over an
  explicit tree of elements.
- `Text` models the Python string operations the code relies on:
  `split`, `join`, `strip`, `lower`, `str(int)` and `int(str)`.
- `Wrappers` holds `Option`, `Result` and `Outcome`.

## Model

| member | source | states |
|---|---|---|
| Ledger.SetStatus | telegram_agent/app/queue.py:143-164 | `_update_status`'s `UPDATE`: the row gets the new status and time; every other column and every other row is unchanged, and no row appears or disappears |
| Ledger.Finish | telegram_agent/app/queue.py:74-96 | `mark_done` / `mark_failed`: status, time and result of an existing row are set; an unknown id changes nothing; other rows are unchanged |
| Ledger.TaskQueue.constructor | telegram_agent/app/queue.py:26-50 | a fresh database is an empty, valid table |
| Ledger.TaskQueue.Tick | telegram_agent/app/queue.py:54 | time moves forward and the table is unchanged |
| Ledger.TaskQueue.CreateTask | telegram_agent/app/queue.py:52-63 | a new `pending_approval` row with both times now, no result, and the caller's fields; a reused id fails like SQLite's primary key and changes nothing |
| Ledger.TaskQueue.UpdateStatus | telegram_agent/app/queue.py:143-164 | true iff the row exists and, when an expected status is given, has it; exactly then the row is updated, otherwise the table is unchanged |
| Ledger.TaskQueue.ApproveTask | telegram_agent/app/queue.py:65-66 | succeeds iff the row is `pending_approval`, and then makes it `queued` |
| Ledger.TaskQueue.CancelTask | telegram_agent/app/queue.py:68-69 | succeeds iff the row exists, whatever its status, and then makes it `cancelled` |
| Ledger.TaskQueue.MarkRunning | telegram_agent/app/queue.py:71-72 | succeeds iff the row is `queued`, and then makes it `running` |
| Ledger.TaskQueue.MarkDone | telegram_agent/app/queue.py:74-84 | the row becomes `completed` with the report as its result |
| Ledger.TaskQueue.MarkFailed | telegram_agent/app/queue.py:86-96 | the row becomes `failed` with `{"error": message}` as its result |
| Ledger.TaskQueue.GetTask | telegram_agent/app/queue.py:98-106 | a row is returned iff one is stored under the id, and it is that stored row, with its id and ordered times |
| Ledger.TaskQueue.HasRunning | telegram_agent/app/queue.py:138-141 | true iff some stored row is `running` |
| Ledger.TaskQueue.NextQueued | telegram_agent/app/queue.py:121-141 | nothing while a task runs; otherwise a stored queued row with the smallest `created_at`, or nothing only when no row is queued |
| Ledger.TaskQueue.Newest | telegram_agent/app/queue.py:114 | `ORDER BY created_at DESC`: the chosen row is at least as new as every row not yet listed |
| Ledger.TaskQueue.ListRecent | telegram_agent/app/queue.py:108-119 | `min(limit, n)` rows (all of them for a negative limit); they are distinct stored rows, newest first, and no row left out is newer than a listed one |
| Ledger.IdsOfAppend | telegram_agent/app/queue.py:119 | listing one more row adds exactly its id to the listed ids |
| Ledger.ListingStep | telegram_agent/app/queue.py:108-119 | listing the newest unseen row next keeps the listing invariant |
| Ledger.Lifecycle | telegram_agent/tests/test_queue.py:8-31 | create, approve, `next_queued`, `mark_running`, cancel read back `pending_approval`, `queued`, `running`, `cancelled`, and `next_queued` finds the task |
| Ledger.StatusUpdatesKeepOneRunning | telegram_agent/app/queue.py:143-164 | setting any status other than running keeps "at most one task running" |
| Ledger.FinishKeepsOneRunning | telegram_agent/app/queue.py:74-96 | `mark_done` / `mark_failed` keep "at most one running" and never create a running task |
| Ledger.ClaimKeepsOneRunning | telegram_agent/app/queue.py:121-123 | claiming a task while none runs leaves exactly that one running |
| Ledger.MarkRunningAloneAllowsTwo | telegram_agent/app/queue.py:71-72 | `mark_running` itself does not look at other rows: with one task running, a second queued task is still claimed |
| Ledger.CancelOverwritesCompleted | telegram_agent/app/queue.py:68-69 | cancelling a completed task succeeds and makes it `cancelled`, keeping its result |
| Plans.Lookup | telegram_agent/app/executor.py:73 | `args.get(key)` finds a value iff the key occurs, and the value is stored under it |
| Plans.Append | telegram_agent/app/planner.py:73-79 | appending a step gives it id `len(steps) + 1` and keeps the earlier steps |
| Plans.ClickChoice | telegram_agent/app/planner.py:81-122 | the interaction is click-by-text, else by automation id, else by path, else by coordinates, taking the first helper that matched; a blank id or path counts as no match; `control_type` is added only when non-blank |
| Plans.CreatePlan | telegram_agent/app/planner.py:59-142 | the plan keeps the task and has 3 to 6 steps with ids 1..n in order: capture "before" first, then the request note, and capture "after" last |
| Plans.PlanObservationStep | telegram_agent/app/planner.py:72-79 | the third step is the observation note exactly when an observation is given, and it carries its JSON dump |
| Plans.PlanClickStep | telegram_agent/app/planner.py:81-122 | the step after the notes is an interaction iff the helpers found one, and it is the chosen one; no other step is an interaction |
| Plans.PlanTypeStep | telegram_agent/app/planner.py:124-132 | a typing step is added iff `_parse_type` gives non-blank text; it comes just before the final capture |
| Plans.AtMostOneClick | telegram_agent/app/planner.py:81-122 | no plan holds two interaction steps |
| Plans.ClickTextSubmitPlan | telegram_agent/app/planner.py:59-142 | "click_text Submit" plans capture, note, click on "Submit", capture, with ids 1..4 |
| Executor.WithErrorScreenshot | telegram_agent/app/executor.py:95-108 | the tool is called first with `**args`; success records the step; failure takes one error screenshot, sends it and raises "<action> failed: <exc>", unless the screenshot itself raises |
| Executor.Outs | telegram_agent/app/executor.py:57-89 | one outcome per plan step |
| Executor.LookupAppended | telegram_agent/app/executor.py:74 | `result[key] = v` on a record without `key` makes `key` read back `v` |
| Executor.DispatchRecord | telegram_agent/app/executor.py:71-87 | a successful step's record starts with `{"step": id, "action": action}`; a step only calls the tool it was given, under its own action |
| Executor.DispatchCapture | telegram_agent/app/executor.py:72-75 | `screen.capture` passes the audit dir, task id and label (default "step"), records the path as `screenshot` and sends it once |
| Executor.DispatchFocus | telegram_agent/app/executor.py:80-81 | `uia.focus_window` succeeds iff `title_substring` is given and the tool returns, and records the tool's answer as `focused` |
| Executor.DispatchNote | telegram_agent/app/executor.py:84-85 | `log.note` never fails and never calls its registered tool; it logs the message, default "" |
| Executor.DispatchUiaClick | telegram_agent/app/executor.py:82-83 | the three UIA clicks go through the error-screenshot wrapper; a failure is screenshot, sent and re-raised with the action's name |
| Executor.Dispatch | telegram_agent/app/executor.py:71-87 | the per-action branches: the tool call, its arguments, the record and the photos sent, or the step's error |
| Executor.DispatchPropagates | telegram_agent/app/executor.py:76-87 | any other action fails only with the tool's own exception or the `KeyError` of a missing argument, and takes no screenshot |
| Executor.StepChecks | telegram_agent/app/executor.py:58-68 | cancellation is checked first, then the timeout (elapsed strictly greater), then the allow-list; a refused step has no effect; an admitted step first sends "Executing step <id>: <action>" |
| Executor.StepRecord | telegram_agent/app/executor.py:58-89 | a step succeeds only when admitted; its record starts with its id and action; every tool it calls is the registered one for its name |
| Executor.RunStep | telegram_agent/app/executor.py:57-89 | one iteration: the cancel, timeout and allow-list checks, the progress message, then `Dispatch` |
| Executor.Execute | telegram_agent/app/executor.py:41-93 | the whole run as a value: open the audit log, run steps until one fails, close the log; the outcome is `{task, steps}` or the first error |
| Executor.ToolRegistry.constructor | telegram_agent/app/executor.py:18-20 | a new registry allows nothing |
| Executor.ToolRegistry.Register | telegram_agent/app/executor.py:22-23 | adds the tool, or replaces the one of the same name |
| Executor.ToolRegistry.Get | telegram_agent/app/executor.py:25-26 | a tool is returned iff the name is registered, and it is the registered one |
| Executor.RegisterThenGet | telegram_agent/tests/test_tool_registry.py:6-14 | a registered tool is returned, an unknown name gives nothing, and re-registering replaces the tool |
| Executor.DefaultToolRegistry | telegram_agent/app/executor.py:111-122 | exactly the nine actions, each mapped to its tool |
| Executor.TaskExecutor.constructor | telegram_agent/app/executor.py:37-39 | keeps the audit dir and the registry |
| Executor.TaskExecutor.ExecutePlan | telegram_agent/app/executor.py:41-93 | the loop's outcome and effects are exactly those of `Execute` on the same job |
| Executor.RecordsBetween | telegram_agent/app/executor.py:89 | one record per successful step |
| Executor.RunThrough | telegram_agent/app/executor.py:57-89 | steps that all succeed only append their records and effects |
| Executor.FirstFailure | telegram_agent/app/executor.py:56-62 | a failing step implies a first failing step |
| Executor.RunSucceeds | telegram_agent/app/executor.py:41-93 | a run returns iff every step succeeds; it returns the task and one record per step in order, and its effects are opening the log, the steps' effects, and closing the log |
| Executor.RunFailsAt | telegram_agent/app/executor.py:56-91 | when step j is the first to fail, the run raises its error, nothing of a later step happens, and the log is still closed |
| Executor.RecordsAre | telegram_agent/app/executor.py:89 | the k-th record is the k-th step's value |
| Executor.OutRecord | telegram_agent/app/executor.py:71 | a successful step's outcome starts with its id and action |
| Executor.RecordsMatchSteps | telegram_agent/app/executor.py:71-93 | every record of a completed run starts with its own step's id and action |
| Executor.InvokesOnlyRegistered | telegram_agent/app/executor.py:64-87 | no effect of a run calls anything but the registered tool of its action |
| Executor.CancelledBeforeFirstStep | telegram_agent/app/executor.py:50-59 | cancelled before the first step, a run only opens and closes the audit log and raises "Task cancelled" |
| Config.Classify | telegram_agent/app/settings.py:19 | a part is skipped iff it strips to ""; otherwise it is the `int()` of its stripped text, or, when that is no integer, it is reported by that non-blank stripped text |
| Config.ParseIds | telegram_agent/app/settings.py:19 | the comprehension over the comma-separated parts, as a set or the first `int()` error |
| Config.AllowedUsers | telegram_agent/app/settings.py:18-19 | `allowed_users()` parses `allowed_user_ids` |
| Config.AllowedChats | telegram_agent/app/settings.py:21-22 | `allowed_chats()` parses `allowed_chat_ids` |
| Config.CollectOk | telegram_agent/app/settings.py:18-22 | an id list parses iff every part is blank or an integer |
| Config.CollectValues | telegram_agent/app/settings.py:18-22 | a parsed list is exactly the set of its parts' integers |
| Config.CollectError | telegram_agent/app/settings.py:18-22 | a failed parse reports the first part that is not an integer |
| Config.CollectConcat | telegram_agent/app/settings.py:19 | parsing two runs of parts gives the union of their sets |
| Config.ParseIdsConcat | telegram_agent/app/settings.py:19 | "a,b" allows the ids of `a` and of `b` |
| Config.ParseIdsDuplicate | telegram_agent/app/settings.py:19 | repeating a list changes nothing |
| Config.CollectBlank | telegram_agent/app/settings.py:19 | only blank parts give the empty set |
| Config.BlankIdsEmpty | telegram_agent/app/settings.py:19 | a list of only commas and whitespace, the empty string included, allows nobody |
| Config.SplitPartsFrom | telegram_agent/app/settings.py:19 | every character of a split part comes from the list |
| Config.ClassifyInt | telegram_agent/app/settings.py:19 | `str(n)` is read back as `n` |
| Config.CollectTwo | telegram_agent/app/settings.py:19 | two parts give both ids, or the second part's error |
| Config.NoCommaInInt | telegram_agent/app/settings.py:19 | `str(n)` holds no comma |
| Config.SingleId | telegram_agent/app/settings.py:19 | a list of one id allows exactly that id |
| Config.TwoIds | telegram_agent/app/settings.py:19 | "a,b" allows exactly `a` and `b` |
| Config.TenTwenty | telegram_agent/tests/test_auth.py:25-33 | "10,20" allows exactly 10 and 20 |
| Config.OneTwo | telegram_agent/tests/test_auth.py:25-33 | "1,2" allows exactly 1 and 2 |
| Config.NotAnIntRaises | telegram_agent/app/settings.py:19 | "1, x" raises the `int()` error for "x" |
| Auth.IsAuthorized | telegram_agent/app/auth.py:16-29 | access is granted iff user and chat are present and listed, and the reason is then "ok"; a missing user or chat, an unlisted user and an unlisted chat are refused with their own reasons, in that order; a malformed list raises only when it is read |
| Auth.AuthorizedUserAndChat | telegram_agent/tests/test_auth.py:25-33 | user 1 in chat 10 with users "1,2" and chats "10,20" is let in |
| Auth.RejectsUnlistedUser | telegram_agent/tests/test_auth.py:36-44 | user 2 with users "1" is refused as "user not allowed" |
| Bot.StepLines | telegram_agent/app/bot.py:30-31 | one line per step, in order; `_format_plan` writes each as `"<id>. <action> <args>"` |
| Bot.StepLinesSnoc | telegram_agent/app/bot.py:30-31 | one more step adds its line after the others |
| Bot.FormatPlan | telegram_agent/app/bot.py:27-32 | the loop's text is the task line and the step lines joined with newlines |
| Bot.FormatPlanLines | telegram_agent/app/bot.py:27-32 | without line breaks in the fields, the text splits back into the task line and one line per step |
| Bot.Gate | telegram_agent/app/bot.py:18-20 | a handler goes on iff the sender is authorized; a refusal answers "Unauthorized: " and `is_authorized`'s reason when there is a chat and nothing otherwise; a malformed id list raises its parse error |
| Bot.DoCommand | telegram_agent/app/bot.py:83-107 | refused, usage or duplicate-id cases leave the ledger unchanged; otherwise the joined arguments are planned and stored as a new `pending_approval` task with the configured timeout, and the reply carries the id and the formatted plan |
| Bot.ApproveCommand | telegram_agent/app/bot.py:110-126 | queues the named task iff it is pending approval, and says which happened; usage and refusal change nothing |
| Bot.CancelCommand | telegram_agent/app/bot.py:129-145 | cancels the named task iff it exists, whatever its status, and says which happened |
| Bot.RunNextTask | telegram_agent/app/bot.py:148-187 | with a task running or none queued nothing changes; otherwise the oldest queued task is picked; a cancel before the claim stops it; a claimed task is run on its own plan and timeout and settled by `Settle`, which fails a completed task when the "completed" message raises; no task is left running and "at most one running" is kept |
| Bot.RunClaimed | telegram_agent/app/bot.py:160-187 | the run's outcome is recorded by `mark_done` or `mark_failed` after any `/cancel` during the run; when sending "completed" raises, the task is then marked failed with that error; the notice names the task and how it ended |
| Bot.Settle | telegram_agent/app/bot.py:172-187 | `mark_done` with the report, then `mark_failed` with the send's error if "completed" could not be sent; `mark_failed` with the run's error when it raised |
| Bot.CancelCheck | telegram_agent/app/bot.py:161-163 | poll `i` reads the ledger and answers whether the task exists and is `cancelled` |
| Bot.TickSettles | telegram_agent/app/bot.py:173-187 | after a claimed run the task is completed with its report only when the run returned and "completed" was sent; otherwise it is failed with the run's error, or else the send's; every other task is unchanged, and nothing is running |
| Bot.PollSeesCancel | telegram_agent/app/bot.py:161-163 | `cancel_check` answers true exactly from the poll the `/cancel` lands before |
| Bot.CancelledRunFails | telegram_agent/app/bot.py:161-187 | a task cancelled during its run ends `failed`, not `cancelled`, with "Task cancelled" as the error when no earlier step failed |
| Input.EnsureInBounds | telegram_agent/app/tools/input.py:8-13 | passes iff there are four bounds and the point lies inside them, edges included; each error message is the source's |
| Input.Click | telegram_agent/app/tools/input.py:16-20 | the mouse goes to (x, y) iff no bounds are given or the bounds check passes; otherwise the check's error |
| Input.BoundsAreInclusive | telegram_agent/app/tools/input.py:12 | corners are inside, one step past an edge is not |
| Input.Keys | telegram_agent/app/tools/input.py:29 | at most one key per part |
| Input.LowerKeepsTrimmed | telegram_agent/app/tools/input.py:29 | lower-casing a stripped part keeps it stripped |
| Input.KeysAreKeys | telegram_agent/app/tools/input.py:29 | every key is non-blank, stripped, lower case and free of `+` |
| Input.HotkeyKeys | telegram_agent/app/tools/input.py:28-33 | `hotkey` hands on a non-empty list of normal keys, or raises "keys must not be empty" |
| Input.KeysOfKeys | telegram_agent/app/tools/input.py:29 | normal keys pass through unchanged, in order |
| Input.HotkeyRoundTrip | telegram_agent/app/tools/input.py:28-33 | joining normal keys with `+` and parsing them gives the same keys |
| Input.KeysConcat | telegram_agent/app/tools/input.py:29 | the keys of two runs of parts are the keys of each, in order |
| Input.SplitAroundBlank | telegram_agent/app/tools/input.py:29 | "a+ +b" splits into `a`, a blank part and `b` |
| Input.BlankPartDropped | telegram_agent/app/tools/input.py:29 | a blank part yields no key |
| Input.KeyPartKept | telegram_agent/app/tools/input.py:29 | a part that is already a key is kept as it is |
| Input.HotkeyOfParts | telegram_agent/app/tools/input.py:28-33 | `hotkey` hands on the keys of the parts of its argument |
| Input.KeysSkipBlank | telegram_agent/app/tools/input.py:28-33 | "a+ +b" names the keys `a` and `b` |
| Input.Sleep | telegram_agent/app/tools/input.py:36-41 | allowed iff 0 ≤ seconds ≤ 30, with the source's two error messages |
| Uia.Preorder | telegram_agent/app/tools/uia.py:40-47 | a walk starts with the node itself at its path |
| Uia.Take | telegram_agent/app/tools/uia.py:41-47 | the cut-off keeps a prefix of at most `MAX_DUMP_NODES` entries, all of it when shorter |
| Uia.TakeTake | telegram_agent/app/tools/uia.py:41-47 | cutting off, appending and cutting off again is cutting off once |
| Uia.TakeFull | telegram_agent/app/tools/uia.py:45-47 | once the cut-off is full, more entries change nothing |
| Uia.ForestPrefix | telegram_agent/app/tools/uia.py:44-47 | the first k subtrees are a prefix of the first m |
| Uia.Walk | telegram_agent/app/tools/uia.py:40-47 | the recursive walk appends the node's preorder to the results, stopping at `MAX_DUMP_NODES` |
| Uia.Dump | telegram_agent/app/tools/uia.py:35-50 | the first `MAX_DUMP_NODES` entries of the window's preorder from "root" |
| Uia.KeepSegments | telegram_agent/app/tools/uia.py:113 | kept segments are non-empty parts that are not "root" in any case |
| Uia.DescendStep | telegram_agent/app/tools/uia.py:115-123 | a non-integer segment stops the walk as invalid, an index out of range (negative included) as out of range, and any other moves to that child |
| Uia.Descend | telegram_agent/app/tools/uia.py:114-123 | the walk down the segments: a non-integer segment or an out-of-range index stops it, else it reaches the node |
| Uia.Resolve | telegram_agent/app/tools/uia.py:111-124 | the node `click_path` clicks, or its `RuntimeError` message for an invalid segment or an index out of range |
| Uia.ClickPath | telegram_agent/app/tools/uia.py:111-124 | the loop clicks exactly what `Resolve` names, or raises its error |
| Uia.KeepConcat | telegram_agent/app/tools/uia.py:113 | filtering two runs of parts filters each |
| Uia.IndexSegment | telegram_agent/app/tools/uia.py:45 | an index written by the walk is one kept segment with no "/" |
| Uia.SegmentsOfChildPath | telegram_agent/app/tools/uia.py:45 | a child's path has its parent's segments, then its index |
| Uia.RootSegments | telegram_agent/app/tools/uia.py:113 | "root" has no segments |
| Uia.DescendSnoc | telegram_agent/app/tools/uia.py:115-123 | one more segment continues from where the others ended |
| Uia.DescendChild | telegram_agent/app/tools/uia.py:117-123 | the index written for a child leads to that child |
| Uia.ForestLeft | telegram_agent/app/tools/uia.py:44-45 | entries of earlier subtrees keep their places |
| Uia.ForestRight | telegram_agent/app/tools/uia.py:44-45 | the later entries are the new child's subtree |
| Uia.ChildResolves | telegram_agent/app/tools/uia.py:45 | if a path leads to a node, its k-th child path leads to its k-th child |
| Uia.TargetFollowsChildren | telegram_agent/app/tools/uia.py:111-124 | `click_path` follows every child path `dump` writes |
| Uia.PreorderResolves | telegram_agent/app/tools/uia.py:35-50 | every entry below a node reached by its path has a path leading to its element |
| Uia.ForestResolves | telegram_agent/app/tools/uia.py:44-45 | the same for the subtrees of the first k children |
| Uia.DumpedPathsResolve | telegram_agent/app/tools/uia.py:35-50 | `click_path` on any path `dump` reports clicks that entry's element |
| Uia.RootPathTargetsWindow | telegram_agent/app/tools/uia.py:113-124 | "root" clicks the active window |
| Uia.NegativeIndexOutOfRange | telegram_agent/app/tools/uia.py:121-122 | a negative index is out of range, not an invalid segment, and not Python's index from the end |
| Uia.FocusWindow | telegram_agent/app/tools/uia.py:53-59 | focuses the first window whose title contains the substring, ignoring case, or reports that none does |
| Text.TrimStart | telegram_agent/app/settings.py:19 | the kept rest does not start with whitespace |
| Text.TrimEnd | telegram_agent/app/settings.py:19 | the kept rest does not end with whitespace and starts where the input did |
| Text.TrimStartSuffix | telegram_agent/app/settings.py:19 | leading whitespace is what is dropped, and the rest is a suffix |
| Text.TrimEndPrefix | telegram_agent/app/settings.py:19 | trailing whitespace is what is dropped, and the rest is a prefix |
| Text.Strip | telegram_agent/app/settings.py:19 | `strip()` has no whitespace at either end and is no longer than the input |
| Text.StripBlank | telegram_agent/app/settings.py:19 | `strip()` is empty iff the input is all whitespace |
| Text.StripKeeps | telegram_agent/app/tools/input.py:29 | `strip()` adds no character |
| Text.StripTrimmed | telegram_agent/app/settings.py:19 | `strip()` leaves a stripped string alone |
| Text.Split | telegram_agent/app/settings.py:19 | `split(sep)` gives at least one part and no part holds the separator |
| Text.JoinSplit | telegram_agent/app/settings.py:19 | joining the parts of a split gives the string back |
| Text.Join | telegram_agent/app/bot.py:32 | `sep.join(parts)` |
| Text.SplitWithoutSep | telegram_agent/app/settings.py:19 | a string without the separator is its only part |
| Text.SplitConcat | telegram_agent/app/settings.py:19 | splitting at a separator splits each side |
| Text.SplitJoin | telegram_agent/app/bot.py:32 | splitting a join gives the parts back when none holds the separator |
| Text.Lower | telegram_agent/app/tools/uia.py:56 | `lower()` keeps the length and lowers each ASCII letter |
| Text.DigitChar | telegram_agent/app/bot.py:31 | a digit value's character is a digit |
| Text.NatToString | telegram_agent/app/bot.py:31 | `str(n)` is a non-empty run of digits |
| Text.IntToString | telegram_agent/app/bot.py:31 | `str(n)`: "-" before the digits of a negative number |
| Text.AllDigitsAreGroups | telegram_agent/app/settings.py:19 | a run of digits is a valid `int()` literal |
| Text.PyInt | telegram_agent/app/tools/uia.py:117 | `int(s)`: optional whitespace and sign, then digit groups joined by single underscores; anything else is `None` (the `ValueError`) |
| Text.NatToStringValue | telegram_agent/app/settings.py:19 | the digits of `str(n)` spell `n` |
| Text.PyIntOfDigits | telegram_agent/app/settings.py:19 | `int()` of digits is their value |
| Text.PyIntOfNegDigits | telegram_agent/app/settings.py:19 | `int()` of "-" and digits is the negated value |
| Text.NegativeToString | telegram_agent/app/bot.py:31 | `str(n)` of a negative `n` is "-" and the digits of `-n` |
| Text.PyIntOfNegative | telegram_agent/app/settings.py:19 | `int(str(n)) == n` for negative `n` |
| Text.PyIntOfNatural | telegram_agent/app/settings.py:19 | `int(str(n)) == n` for `n ≥ 0` |
| Text.PyIntOfIntToString | telegram_agent/app/settings.py:19 | `int(str(n)) == n` |
| Text.IntToStringShape | telegram_agent/app/settings.py:19 | `str(n)` is non-empty, stripped, and made of digits and "-" |

## Left out

- Telegram I/O is not modelled: sending messages and photos, the `help`,
  `status` and `shot` handlers, and `main`. A handler's answer is a `Reply`
  value.
- Concurrency is not modelled. The tick runs the executor in a worker
  thread while handlers go on. The only interleaving that matters to the
  ledger is a `/cancel` of the running task, and `CancelTiming` says when it
  lands. The ledger's clock does not move during a tick.
- JSON is not modelled. A plan is stored already parsed, so
  `json.loads(plan.to_json())` is the identity. `json.dumps` of an
  observation is an abstract function.
- Bot.StepLines: `ValueRepr` prints strings as `'…'` without Python's escaping of
  quotes and backslashes.
- The regular-expression helpers of `planner.py` are abstract functions, so
  `Plans.CreatePlan` is proved for every behaviour they may have.
- Tools and the outside world are abstract: a tool's result or exception,
  `time.monotonic()`, `cancel_check()` and the error screenshot are answers
  from an `Env`. The mouse, the keyboard and `pyautogui` are not modelled.
- Text.Lower: only ASCII letters are lowered; Python's `lower()` also lowers
  other scripts.
- Text.PyInt: `int()` of non-ASCII digits is not modelled.
- Config.IntError: the part is always quoted as `'…'`; Python's `repr` would use double quotes for a part containing `'` and escape backslashes and non-printable characters.
- Bot.RunClaimed: a database error from `mark_done` or `mark_failed`, and an exception from sending the final "failed" message (which escapes the tick after the ledger is settled), are not modelled.
- Loading the settings from the environment and their defaults (`settings.py` lines 13-16) are not modelled; a `Settings` value is taken as loaded.
- `screen.py` and `system.py` are not part of this model.
- `click_text`, `click_automation_id` and `_best_text_match`, with its
  `SequenceMatcher` ratio, are not modelled. They reach the model only
  through `Executor.DispatchUiaClick`.
- `Uia.Walk` threads the results list as a value rather than updating a
  shared list. The element payload drops `width` and `height`, which are
  functions of the rectangle.
- Uia.FocusWindow returns the index of the window it focuses instead of
  `True`, and `None` instead of `False`.
- Input.Sleep: `float` is modelled as `real`, without NaN or infinity.
- `type_text` only forwards its text to the keyboard, so it has no member.
- A timeout as a float and the `RotatingFile` options of the audit log are
  not modelled.
