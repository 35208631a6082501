/** Frontend/src/pages/AutomationPage.jsx: the page state and its rule-list handlers. */
module AutomationPage {
  import opened Wrappers
  import opened JsValues
  import Seqs
  import MockData
  import opened RulePreview

  /** `projects.find(p => p.id === id)`: the first project with the id. */
  function FindProject(projects: seq<Object>, id: string): (r: Option<Object>)
    ensures r.Some? <==> exists i :: 0 <= i < |projects| && Get(projects[i], "id") == Str(id)
    ensures r.Some? ==> Get(r.value, "id") == Str(id) && r.value in projects
    ensures r.Some? ==>
      exists i :: 0 <= i < |projects| && r.value == projects[i] && forall j :: 0 <= j < i ==> Get(projects[j], "id") != Str(id)
  {
    var p := (p: Object) => Get(p, "id") == Str(id);
    var r := Seqs.Find(projects, p);
    if r.Some? then
      var i := Seqs.FindIndex(projects, p).value;
      assert forall j :: 0 <= j < i ==> !p(projects[j]);
      r
    else r
  }

  /** `rules.filter(rule => rule.id !== ruleId)`. */
  function WithoutRule(rules: seq<Rule>, ruleId: string): (r: seq<Rule>)
    ensures forall i :: 0 <= i < |r| ==> r[i].id != ruleId && r[i] in rules
    ensures forall i :: 0 <= i < |rules| && rules[i].id != ruleId ==> rules[i] in r
    ensures Seqs.IsSubsequence(r, rules)
    ensures forall rule :: multiset(r)[rule] == if rule.id == ruleId then 0 else multiset(rules)[rule]
  {
    var keep := (rule: Rule) => rule.id != ruleId;
    Seqs.FilterSpec(rules, keep);
    Seqs.Filter(rules, keep)
  }

  /** Deleting an id no rule has changes nothing. */
  lemma DeleteAbsentIsNoOp(rules: seq<Rule>, ruleId: string)
    requires forall i :: 0 <= i < |rules| ==> rules[i].id != ruleId
    ensures WithoutRule(rules, ruleId) == rules
  {
    Seqs.FilterKeepsAll(rules, (rule: Rule) => rule.id != ruleId);
  }

  /** Creating a rule with a fresh id and deleting that id gives back the original list. */
  lemma CreateThenDeleteRestores(rules: seq<Rule>, rule: Rule)
    requires forall i :: 0 <= i < |rules| ==> rules[i].id != rule.id
    ensures WithoutRule([rule] + rules, rule.id) == rules
  {
    var keep := (r: Rule) => r.id != rule.id;
    Seqs.FilterAppend([rule], rules, keep);
    Seqs.FilterKeepsAll(rules, keep);
    assert Seqs.Filter([rule], keep) == [];
  }

  class Page {
    var project: Option<Object>
    var rules: seq<Rule>
    var isLoading: bool
    /** The sample projects and rules the delayed load hands over. */
    const catalogue: seq<Object>
    const sampleRules: seq<Rule>

    constructor()
      ensures catalogue == MockData.Projects && sampleRules == MockData.Rules
      ensures project == None && rules == [] && isLoading
    {
      catalogue := MockData.Projects;
      sampleRules := MockData.Rules;
      project := None;
      rules := [];
      isLoading := true;
    }

    /** The delayed load: the project with the route id (if any) and the mock rules. */
    method Load(id: string)
      modifies this
      ensures project == FindProject(catalogue, id)
      ensures rules == sampleRules && !isLoading
    {
      project := FindProject(catalogue, id);
      rules := sampleRules;
      isLoading := false;
    }

    method HandleCreateRule(rule: Rule)
      modifies this
      ensures rules == [rule] + old(rules)
      ensures project == old(project) && isLoading == old(isLoading)
    {
      rules := [rule] + rules;
    }

    method HandleDeleteRule(ruleId: string)
      modifies this
      ensures rules == WithoutRule(old(rules), ruleId)
      ensures project == old(project) && isLoading == old(isLoading)
    {
      rules := WithoutRule(rules, ruleId);
    }
  }
}
