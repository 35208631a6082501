/**
 * Frontend/src/components/automation/RuleCreationForm.jsx: the form state
 * (`ruleName`, `condition`, `action`) and its five handlers.
 */
module RuleCreationForm {
  import opened Wrappers
  import JsStrings
  import Seqs
  import opened RulePreview

  datatype ConditionType = ConditionType(id: string, name: string, values: seq<string>)
  datatype Choice = Choice(id: string, name: string)
  datatype ActionType = ActionType(id: string, name: string, values: seq<Choice>)

  const ConditionTypes: seq<ConditionType> := [
    ConditionType("priority", "Task Priority", ["high", "medium", "low"]),
    ConditionType("status", "Task Status", ["created", "completed", "overdue"]),
    ConditionType("label", "Task Label", ["design", "development", "marketing"])
  ]

  const ActionTypes: seq<ActionType> := [
    ActionType("assign", "Assign To", [Choice("1", "Alex Johnson"), Choice("2", "Maya Patel"), Choice("3", "David Kim")]),
    ActionType("move", "Move To Column", [Choice("todo", "To Do"), Choice("in-progress", "In Progress"), Choice("done", "Done")]),
    ActionType("label", "Add Label", [Choice("important", "Important"), Choice("blocked", "Blocked"), Choice("review", "Needs Review")])
  ]

  const InitialCondition := Condition("priority", Text("high"))
  const InitialAction := Action("assign", Text("1"))

  /** A condition whose value is one of the values listed for its type. */
  predicate ConditionListed(c: Condition) {
    exists i, j :: 0 <= i < |ConditionTypes| && 0 <= j < |ConditionTypes[i].values|
      && ConditionTypes[i].id == c.kind && c.value == Text(ConditionTypes[i].values[j])
  }

  /** An action whose value is the id of one of the choices listed for its type. */
  predicate ActionListed(a: Action) {
    exists i, j :: 0 <= i < |ActionTypes| && 0 <= j < |ActionTypes[i].values|
      && ActionTypes[i].id == a.kind && a.value == Text(ActionTypes[i].values[j].id)
  }

  /**
   * The value a condition-type change selects: the first value listed for a
   * known type, and `undefined` for an unknown one.
   */
  function ConditionDefault(kind: string): (v: RuleValue)
    ensures forall i :: 0 <= i < |ConditionTypes| && ConditionTypes[i].id == kind ==> v == Text(ConditionTypes[i].values[0])
    ensures (forall i :: 0 <= i < |ConditionTypes| ==> ConditionTypes[i].id != kind) ==> v == Missing
  {
    match Seqs.Find(ConditionTypes, (c: ConditionType) => c.id == kind)
    case Some(c) => if c.values == [] then Missing else Text(c.values[0])
    case None => Missing
  }

  /** The value an action-type change selects: the id of the first choice of that type. */
  function ActionDefault(kind: string): (v: RuleValue)
    requires exists i :: 0 <= i < |ActionTypes| && ActionTypes[i].id == kind
    ensures forall i :: 0 <= i < |ActionTypes| && ActionTypes[i].id == kind ==> v == Text(ActionTypes[i].values[0].id)
  {
    var found := Seqs.Find(ActionTypes, (a: ActionType) => a.id == kind);
    Text(found.value.values[0].id)
  }

  /** The initial condition and action are listed values of their types. */
  lemma InitialStateListed()
    ensures ConditionListed(InitialCondition) && ActionListed(InitialAction)
  {
    assert ConditionTypes[0].values[0] == "high";
    assert ActionTypes[0].values[0].id == "1";
  }

  /** Choosing a known type selects a listed value, so the form stays within its lists. */
  lemma TypeChangeStaysListed(kind: string)
    ensures (exists i :: 0 <= i < |ConditionTypes| && ConditionTypes[i].id == kind) ==> ConditionListed(Condition(kind, ConditionDefault(kind)))
    ensures (exists i :: 0 <= i < |ActionTypes| && ActionTypes[i].id == kind) ==> ActionListed(Action(kind, ActionDefault(kind)))
  {
    if i :| 0 <= i < |ConditionTypes| && ConditionTypes[i].id == kind {
      assert 0 < |ConditionTypes[i].values|;
      assert ConditionTypes[i].id == kind && Condition(kind, ConditionDefault(kind)).value == Text(ConditionTypes[i].values[0]);
    }
    if i :| 0 <= i < |ActionTypes| && ActionTypes[i].id == kind {
      assert 0 < |ActionTypes[i].values|;
      assert ActionTypes[i].id == kind && Action(kind, ActionDefault(kind)).value == Text(ActionTypes[i].values[0].id);
    }
  }

  /** The rule a submit creates, from the random draw `floor(random * 1000)`. */
  function NewRule(draw: nat, name: string, condition: Condition, action: Action): (r: Rule)
    requires draw < 1000
    ensures r.name == name && r.condition == condition && r.action == action
    ensures |r.id| > 5 && r.id[..5] == "rule-" && !ShowsTestingWarning(r)
  {
    var r := Rule("rule-" + JsStrings.NatText(draw), name, condition, action);
    GeneratedIdsNeverWarn(r, JsStrings.NatText(draw));
    r
  }

  class Form {
    var ruleName: string
    var condition: Condition
    var action: Action

    constructor()
      ensures ruleName == "" && condition == InitialCondition && action == InitialAction
    {
      ruleName := "";
      condition := InitialCondition;
      action := InitialAction;
    }

    /** The name input. */
    method HandleNameChange(value: string)
      modifies this
      ensures ruleName == value && condition == old(condition) && action == old(action)
    {
      ruleName := value;
    }

    /**
     * Submit: an empty name does nothing; otherwise the rule built from the
     * current fields is handed over and only the name is cleared.
     */
    method HandleSubmit(draw: nat) returns (created: Option<Rule>)
      requires draw < 1000
      modifies this
      ensures old(ruleName) == "" ==> created == None && ruleName == old(ruleName)
      ensures old(ruleName) != "" ==> created == Some(NewRule(draw, old(ruleName), old(condition), old(action))) && ruleName == ""
      ensures condition == old(condition) && action == old(action)
    {
      if ruleName == "" {
        return None;
      }
      created := Some(NewRule(draw, ruleName, condition, action));
      ruleName := "";
    }

    method HandleConditionTypeChange(kind: string)
      modifies this
      ensures condition == Condition(kind, ConditionDefault(kind))
      ensures ruleName == old(ruleName) && action == old(action)
    {
      condition := Condition(kind, ConditionDefault(kind));
    }

    method HandleConditionValueChange(value: string)
      modifies this
      ensures condition == old(condition).(value := Text(value))
      ensures ruleName == old(ruleName) && action == old(action)
    {
      condition := condition.(value := Text(value));
    }

    /** An unknown action type would read `values[0].id` of an empty list and throw; the caller must pick a listed type. */
    method HandleActionTypeChange(kind: string)
      requires exists i :: 0 <= i < |ActionTypes| && ActionTypes[i].id == kind
      modifies this
      ensures action == Action(kind, ActionDefault(kind))
      ensures ruleName == old(ruleName) && condition == old(condition)
    {
      action := Action(kind, ActionDefault(kind));
    }

    method HandleActionValueChange(value: string)
      modifies this
      ensures action == old(action).(value := Text(value))
      ensures ruleName == old(ruleName) && condition == old(condition)
    {
      action := action.(value := Text(value));
    }
  }

  /**
   * A rule made by the form from its initial state has the assignee id "1"
   * as its value, so its preview shows that id and not the member's name.
   */
  lemma FormAssignShowsId(draw: nat, name: string)
    requires draw < 1000
    ensures FormatAction(NewRule(draw, name, InitialCondition, InitialAction)).valueText == Text("1")
  {
  }
}
