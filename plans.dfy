/** The plan a task carries (telegram_agent/app/planner.py): its data model
    and `create_plan`, the deterministic text-to-steps builder. */
module Plans {
  import opened Wrappers

  /** The scalar values that occur in step arguments and tool results. */
  datatype Value = NoneV | BoolV(b: bool) | IntV(i: int) | StrV(s: string)

  /** A Python dict of arguments, in insertion order. */
  type Args = seq<(string, Value)>

  /** One plan step: `{"id": ..., "action": ..., "args": {...}}`. */
  datatype Step = Step(id: int, action: string, args: Args)

  /** `Plan(task, steps)`, as the executor reads it back from `plan_json`. */
  datatype Plan = Plan(task: string, steps: seq<Step>)

  /** What `execute_plan` returns on success: `{"task": ..., "steps": [...]}`,
      one result record (a dict) per step. */
  datatype RunReport = RunReport(task: string, steps: seq<Args>)

  /** `args.get(key)`: the value stored under the first occurrence of `key`. */
  function Lookup(args: Args, key: string): (r: Option<Value>)
    ensures r.Some? <==> exists i :: 0 <= i < |args| && args[i].0 == key
    ensures r.Some? ==> exists i :: 0 <= i < |args| && args[i] == (key, r.value)
  {
    if |args| == 0 then None
    else if args[0].0 == key then Some(args[0].1)
    else
      var r := Lookup(args[1..], key);
      assert forall i :: 1 <= i < |args| ==> args[i] == args[1..][i - 1];
      r
  }

  /** Python truthiness of an optional string: present and not empty. */
  predicate NonBlank(o: Option<string>) {
    o.Some? && o.value != ""
  }

  /** The regular-expression helpers `_parse_click`, `_parse_type`,
      `_parse_click_text`, `_parse_click_uia`, `_parse_click_path`, and
      `json.dumps` of the observation; their text semantics are not modelled,
      so `CreatePlan` is proved for every behaviour they may have. `\d+`
      captures make the click coordinates natural numbers. */
  datatype PlannerOps = PlannerOps(
    parseClick: string -> Option<(nat, nat)>,
    parseType: string -> Option<string>,
    parseClickText: string -> Option<(string, Option<string>)>,
    parseClickUia: string -> Option<string>,
    parseClickPath: string -> Option<string>,
    dumps: Args -> string)

  predicate IsClickAction(action: string) {
    action in {"uia.click_text", "uia.click_automation_id", "uia.click_path", "input.click"}
  }

  /** `steps.append({"id": len(steps) + 1, ...})`. */
  function Append(steps: seq<Step>, action: string, args: Args): (r: seq<Step>)
    ensures |r| == |steps| + 1 && r[|steps|] == Step(|steps| + 1, action, args)
    ensures forall i :: 0 <= i < |steps| ==> r[i] == steps[i]
  {
    steps + [Step(|steps| + 1, action, args)]
  }

  /** The interaction `create_plan` picks, as an action and its arguments:
      the first of click by text, by automation id, by path, by coordinates
      whose helper matched (a blank id or path counts as no match). */
  function ClickChoice(task: string, ops: PlannerOps): (r: Option<(string, Args)>)
    ensures r.Some? ==> IsClickAction(r.value.0)
    ensures r.Some? <==>
      ops.parseClickText(task).Some? || NonBlank(ops.parseClickUia(task))
      || NonBlank(ops.parseClickPath(task)) || ops.parseClick(task).Some?
    ensures ops.parseClickText(task).Some? ==>
      && r.value.0 == "uia.click_text"
      && Lookup(r.value.1, "text") == Some(StrV(ops.parseClickText(task).value.0))
      && (Lookup(r.value.1, "control_type").Some? <==> NonBlank(ops.parseClickText(task).value.1))
    ensures ops.parseClickText(task).None? && NonBlank(ops.parseClickUia(task)) ==>
      r.value == ("uia.click_automation_id", [("automation_id", StrV(ops.parseClickUia(task).value))])
    ensures ops.parseClickText(task).None? && !NonBlank(ops.parseClickUia(task)) && NonBlank(ops.parseClickPath(task)) ==>
      r.value == ("uia.click_path", [("path", StrV(ops.parseClickPath(task).value))])
    ensures (ops.parseClickText(task).None? && !NonBlank(ops.parseClickUia(task)) && !NonBlank(ops.parseClickPath(task))
      && ops.parseClick(task).Some?) ==>
      r.value == ("input.click", [("x", IntV(ops.parseClick(task).value.0)), ("y", IntV(ops.parseClick(task).value.1))])
  {
    var clickText := ops.parseClickText(task);
    if clickText.Some? then
      var (text, controlType) := clickText.value;
      Some(("uia.click_text", [("text", StrV(text))]
        + (if NonBlank(controlType) then [("control_type", StrV(controlType.value))] else [])))
    else if NonBlank(ops.parseClickUia(task)) then
      Some(("uia.click_automation_id", [("automation_id", StrV(ops.parseClickUia(task).value))]))
    else if NonBlank(ops.parseClickPath(task)) then
      Some(("uia.click_path", [("path", StrV(ops.parseClickPath(task).value))]))
    else if ops.parseClick(task).Some? then
      var (x, y) := ops.parseClick(task).value;
      Some(("input.click", [("x", IntV(x)), ("y", IntV(y))]))
    else None
  }

  /** `create_plan(task, observation)`; an absent observation is the empty
      dict, both being falsy. The contract is the plan's fixed skeleton. */
  function CreatePlan(task: string, observation: Args, ops: PlannerOps): (p: Plan)
    ensures p.task == task
    ensures 3 <= |p.steps| <= 6
    // ids are exactly 1..n in list order
    ensures forall i :: 0 <= i < |p.steps| ==> p.steps[i].id == i + 1
    // capture before, then the request note
    ensures p.steps[0] == Step(1, "screen.capture", [("label", StrV("before"))])
    ensures p.steps[1] == Step(2, "log.note", [("message", StrV("Requested task: " + task))])
    // capture after, last
    ensures p.steps[|p.steps| - 1] == Step(|p.steps|, "screen.capture", [("label", StrV("after"))])
  {
    var base := [
      Step(1, "screen.capture", [("label", StrV("before"))]),
      Step(2, "log.note", [("message", StrV("Requested task: " + task))])
    ];
    var observed :=
      if |observation| > 0 then
        Append(base, "log.note", [("message", StrV("Observation summary: " + ops.dumps(observation)))])
      else base;
    var click := ClickChoice(task, ops);
    var clicked := if click.Some? then Append(observed, click.value.0, click.value.1) else observed;
    var text := ops.parseType(task);
    var typed := if NonBlank(text) then Append(clicked, "input.type", [("text", StrV(text.value))]) else clicked;
    Plan(task, Append(typed, "screen.capture", [("label", StrV("after"))]))
  }

  /** The observation note is step 3 exactly when an observation is given. */
  lemma PlanObservationStep(task: string, observation: Args, ops: PlannerOps)
    ensures var p := CreatePlan(task, observation, ops);
      && (|observation| > 0 <==> p.steps[2].action == "log.note")
      && (|observation| > 0 ==>
            p.steps[2].args == [("message", StrV("Observation summary: " + ops.dumps(observation)))])
  {
  }

  /** The interaction step, if any, comes right after the notes and is the
      one `ClickChoice` picks; no other step is an interaction. */
  lemma PlanClickStep(task: string, observation: Args, ops: PlannerOps)
    ensures var p := CreatePlan(task, observation, ops);
      var c := if |observation| > 0 then 3 else 2;
      && (ClickChoice(task, ops).Some? <==> IsClickAction(p.steps[c].action))
      && (ClickChoice(task, ops).Some? ==>
            p.steps[c] == Step(c + 1, ClickChoice(task, ops).value.0, ClickChoice(task, ops).value.1))
      && (forall i :: 0 <= i < |p.steps| && i != c ==> !IsClickAction(p.steps[i].action))
  {
  }

  /** A typing step is added exactly when `_parse_type` yields non-blank
      text, and it is the step before the final capture, after any click. */
  lemma PlanTypeStep(task: string, observation: Args, ops: PlannerOps)
    ensures var p := CreatePlan(task, observation, ops);
      && (NonBlank(ops.parseType(task)) <==> p.steps[|p.steps| - 2].action == "input.type")
      && (NonBlank(ops.parseType(task)) ==> p.steps[|p.steps| - 2].args == [("text", StrV(ops.parseType(task).value))])
      && (forall i :: 0 <= i < |p.steps| - 2 ==> p.steps[i].action != "input.type")
  {
  }

  /** No plan has two interaction steps. */
  lemma AtMostOneClick(task: string, observation: Args, ops: PlannerOps)
    ensures var p := CreatePlan(task, observation, ops);
      forall i, j :: 0 <= i < j < |p.steps| && IsClickAction(p.steps[i].action) ==> !IsClickAction(p.steps[j].action)
  {
  }

  /** The worked example: `"click_text Submit"` plans capture, note, click on
      "Submit", capture, with ids 1..4. */
  lemma ClickTextSubmitPlan(ops: PlannerOps)
    requires ops.parseClickText("click_text Submit") == Some(("Submit", None))
    requires ops.parseType("click_text Submit") == None
    ensures CreatePlan("click_text Submit", [], ops).steps == [
      Step(1, "screen.capture", [("label", StrV("before"))]),
      Step(2, "log.note", [("message", StrV("Requested task: click_text Submit"))]),
      Step(3, "uia.click_text", [("text", StrV("Submit"))]),
      Step(4, "screen.capture", [("label", StrV("after"))])
    ]
  {
    var none: Option<string> := None;
    assert !NonBlank(none);
    assert [("text", StrV("Submit"))] + [] == [("text", StrV("Submit"))];
    assert ClickChoice("click_text Submit", ops) == Some(("uia.click_text", [("text", StrV("Submit"))]));
    assert "Requested task: " + "click_text Submit" == "Requested task: click_text Submit";
  }
}
