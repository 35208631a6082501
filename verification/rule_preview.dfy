/**
 * Frontend/src/components/automation/RulePreview.jsx: the rule record and the
 * two switch-based formatters that turn it into "When … is …" and
 * "Then … …" phrases, plus the testing-warning predicate.
 */
module RulePreview {
  import JsStrings
  import TaskService

  /** A rule value: absent (JS `undefined`), a string, or an `{id, name}` object. */
  datatype RuleValue = Missing | Text(s: string) | Member(id: string, name: string)

  datatype Condition = Condition(kind: string, value: RuleValue)
  datatype Action = Action(kind: string, value: RuleValue)
  datatype Rule = Rule(id: string, name: string, condition: Condition, action: Action)

  /** What a formatter yields: the type text and the value that is rendered. */
  datatype Phrase = Phrase(typeText: string, valueText: RuleValue)

  const ConditionKinds: set<string> := {"priority", "status", "label"}
  const ActionKinds: set<string> := {"assign", "move", "label"}

  /** The condition phrase: a known type gets a caption, any other type is shown verbatim. */
  function FormatCondition(rule: Rule): (p: Phrase)
    ensures p.valueText == rule.condition.value
    ensures rule.condition.kind !in ConditionKinds ==> p.typeText == rule.condition.kind
    ensures rule.condition.kind in ConditionKinds ==> |p.typeText| > 5 && p.typeText[..5] == "Task "
  {
    var text :=
      match rule.condition.kind
      case "priority" => "Task priority"
      case "status" => "Task status"
      case "label" => "Task has label"
      case _ => rule.condition.kind;
    Phrase(text, rule.condition.value)
  }

  /** The column caption a move action names; anything but the first two keys reads "Done". */
  function MoveCaption(v: RuleValue): (caption: string)
    ensures caption in TaskService.BackendStatuses
    ensures caption == "To Do" <==> v == Text("todo")
    ensures caption == "In Progress" <==> v == Text("in-progress")
  {
    if v == Text("todo") then "To Do"
    else if v == Text("in-progress") then "In Progress"
    else "Done"
  }

  /** The action phrase. */
  function FormatAction(rule: Rule): (p: Phrase)
    ensures rule.action.kind == "assign" ==> p.typeText == "Assign task to"
    ensures rule.action.kind == "move" ==> p == Phrase("Move task to", Text(MoveCaption(rule.action.value)))
    ensures rule.action.kind == "label" ==> p == Phrase("Add label", rule.action.value)
    ensures rule.action.kind == "move" ==> p.valueText.Text? && p.valueText.s in TaskService.BackendStatuses
    ensures rule.action.kind == "assign" && rule.action.value.Member? ==> p.valueText == Text(rule.action.value.name)
    ensures rule.action.kind == "assign" && !rule.action.value.Member? ==> p.valueText == rule.action.value
    ensures rule.action.kind !in {"assign", "move"} ==> p.valueText == rule.action.value
    ensures rule.action.kind !in ActionKinds ==> p.typeText == rule.action.kind
  {
    match rule.action.kind
    case "assign" =>
      Phrase("Assign task to", if rule.action.value.Member? then Text(rule.action.value.name) else rule.action.value)
    case "move" => Phrase("Move task to", Text(MoveCaption(rule.action.value)))
    case "label" => Phrase("Add label", rule.action.value)
    case _ => Phrase(rule.action.kind, rule.action.value)
  }

  /** The captions of the three known condition types, which are pairwise distinct. */
  lemma ConditionCaptions(rule: Rule)
    ensures rule.condition.kind == "priority" ==> FormatCondition(rule).typeText == "Task priority"
    ensures rule.condition.kind == "status" ==> FormatCondition(rule).typeText == "Task status"
    ensures rule.condition.kind == "label" ==> FormatCondition(rule).typeText == "Task has label"
  {
  }

  /** For a mapped column key the move caption is the backend status of that key. */
  lemma MoveAgreesWithStatusMapping(rule: Rule, key: string)
    requires rule.action.kind == "move" && rule.action.value == Text(key) && key in TaskService.FrontendKeys
    ensures FormatAction(rule).valueText == Text(TaskService.GetBackendStatus(key))
  {
    TaskService.BackendStatusTable(key);
    assert FormatAction(rule).valueText == Text(MoveCaption(Text(key)));
    if key == "todo" {
    } else if key == "in-progress" {
      assert MoveCaption(Text(key)) == "In Progress";
    } else {
      assert key == "done" && MoveCaption(Text(key)) == "Done";
    }
  }

  /** Any other move target, an absent one included, is captioned "Done". */
  lemma MoveFallsBackToDone(rule: Rule)
    requires rule.action.kind == "move" && rule.action.value != Text("todo") && rule.action.value != Text("in-progress")
    ensures FormatAction(rule) == Phrase("Move task to", Text("Done"))
  {
  }

  /** The testing warning is rendered under a rule. */
  predicate ShowsTestingWarning(rule: Rule) {
    rule.id == "r2"
  }

  /** A rule whose id starts with "rule-" (as every rule the creation form makes does) never shows the warning. */
  lemma GeneratedIdsNeverWarn(rule: Rule, suffix: string)
    requires rule.id == "rule-" + suffix
    ensures !ShowsTestingWarning(rule)
  {
    assert |rule.id| >= 5;
  }
}
