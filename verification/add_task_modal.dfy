/**
 * Frontend/src/components/project/AddTaskModal.jsx: the add-task form state,
 * its field and label handlers, and the submit that builds the new task.
 */
module AddTaskModal {
  import opened Wrappers
  import opened JsValues
  import JsStrings
  import Seqs

  datatype FormData = FormData(
    title: string,
    description: string,
    priority: string,
    dueDate: string,
    assigneeId: string,
    labels: seq<string>)

  /** The four inputs wired to `handleChange` by their `name`. */
  datatype TextField = TitleField | DescriptionField | PriorityField | DueDateField

  const InitialForm := FormData("", "", "medium", "", "1", [])

  datatype TeamMember = TeamMember(id: string, name: string, avatar: string)

  const TeamMembers: seq<TeamMember> := [
    TeamMember("1", "Alex Johnson", "https://i.pravatar.cc/150?img=1"),
    TeamMember("2", "Maya Patel", "https://i.pravatar.cc/150?img=5"),
    TeamMember("3", "David Kim", "https://i.pravatar.cc/150?img=3"),
    TeamMember("4", "Sarah Lee", "https://i.pravatar.cc/150?img=4")
  ]

  const AvailableLabels: seq<string> :=
    ["design", "development", "marketing", "research", "testing", "planning", "ui/ux", "backend", "frontend"]

  function FieldValue(f: FormData, field: TextField): string {
    match field
    case TitleField => f.title
    case DescriptionField => f.description
    case PriorityField => f.priority
    case DueDateField => f.dueDate
  }

  /** `handleChange`: the named field takes the value and every other field is kept. */
  function SetField(f: FormData, field: TextField, value: string): (r: FormData)
    ensures FieldValue(r, field) == value
    ensures forall g :: g != field ==> FieldValue(r, g) == FieldValue(f, g)
    ensures r.assigneeId == f.assigneeId && r.labels == f.labels
  {
    match field
    case TitleField => f.(title := value)
    case DescriptionField => f.(description := value)
    case PriorityField => f.(priority := value)
    case DueDateField => f.(dueDate := value)
  }

  /** `toggleLabel`: a present label is removed everywhere, an absent one appended. */
  function Toggled(labels: seq<string>, tag: string): (r: seq<string>)
    ensures tag in labels ==> (forall i :: 0 <= i < |r| ==> r[i] != tag) && Seqs.IsSubsequence(r, labels)
    ensures tag in labels ==> forall i :: 0 <= i < |labels| && labels[i] != tag ==> labels[i] in r
    ensures tag in labels ==> forall l :: multiset(r)[l] == if l == tag then 0 else multiset(labels)[l]
    ensures tag !in labels ==> r == labels + [tag]
  {
    if tag in labels then
      var keep := (l: string) => l != tag;
      Seqs.FilterSpec(labels, keep);
      Seqs.Filter(labels, keep)
    else labels + [tag]
  }

  /** Toggling an absent label twice gives back the original labels. */
  lemma ToggleAbsentTwice(labels: seq<string>, tag: string)
    requires tag !in labels
    ensures Toggled(Toggled(labels, tag), tag) == labels
  {
    var keep := (l: string) => l != tag;
    Seqs.FilterAppend(labels, [tag], keep);
    Seqs.FilterKeepsAll(labels, keep);
    assert Seqs.Filter([tag], keep) == [];
  }

  /** The submit guard, and the negation of the button's `disabled`. */
  predicate CanSubmit(f: FormData) {
    f.title != "" && f.description != "" && f.dueDate != ""
  }

  function MemberObject(m: TeamMember): Json {
    Obj(map["id" := Str(m.id), "name" := Str(m.name), "avatar" := Str(m.avatar)])
  }

  /** `teamMembers.find(member => member.id === assigneeId)`, undefined when there is none. */
  function Assignee(assigneeId: string): (v: Json)
    ensures (exists i :: 0 <= i < |TeamMembers| && TeamMembers[i].id == assigneeId) <==> v != Undefined
    ensures forall i :: 0 <= i < |TeamMembers| && TeamMembers[i].id == assigneeId ==> v == MemberObject(TeamMembers[i])
  {
    match Seqs.Find(TeamMembers, (m: TeamMember) => m.id == assigneeId)
    case Some(m) => MemberObject(m)
    case None => Undefined
  }

  /** The form as the object that is spread into the new task. */
  function FormObject(f: FormData): Object {
    map["title" := Str(f.title), "description" := Str(f.description), "priority" := Str(f.priority),
        "dueDate" := Str(f.dueDate), "assigneeId" := Str(f.assigneeId), "labels" := StrArr(f.labels)]
  }

  /** The task a submit hands over, from the draw `floor(random * 1000)` and the creation time. */
  function NewTask(f: FormData, draw: nat, createdAt: string): (t: Object)
    requires draw < 1000
    ensures Get(t, "id") == Str("task-" + JsStrings.NatText(draw))
    ensures Get(t, "assignee") == Assignee(f.assigneeId) && Get(t, "createdAt") == Str(createdAt)
  {
    map["id" := Str("task-" + JsStrings.NatText(draw))] + FormObject(f)
      + map["assignee" := Assignee(f.assigneeId), "createdAt" := Str(createdAt)]
  }

  /** The strings of an array of strings. */
  function StringItems(items: seq<Json>): (r: Option<seq<string>>)
    ensures r.Some? ==> |r.value| == |items|
  {
    if items == [] then Some([])
    else if !items[0].Str? then None
    else match StringItems(items[1..])
      case None => None
      case Some(rest) => Some([items[0].s] + rest)
  }

  lemma {:induction false} StringItemsOfStrArr(ss: seq<string>)
    ensures StringItems(StrArr(ss).items) == Some(ss)
  {
    var items := StrArr(ss).items;
    if ss != [] {
      assert items[0] == Str(ss[0]);
      assert items[1..] == StrArr(ss[1..]).items;
      StringItemsOfStrArr(ss[1..]);
      assert StringItems(items) == Some([ss[0]] + ss[1..]);
      assert [ss[0]] + ss[1..] == ss;
    } else {
      assert items == [];
    }
  }

  /** Reads the form fields back out of a task object. */
  function FormOf(t: Object): Option<FormData> {
    var title := Get(t, "title");
    var description := Get(t, "description");
    var priority := Get(t, "priority");
    var dueDate := Get(t, "dueDate");
    var assigneeId := Get(t, "assigneeId");
    var labels := Get(t, "labels");
    if title.Str? && description.Str? && priority.Str? && dueDate.Str? && assigneeId.Str? && labels.Arr? then
      match StringItems(labels.items)
      case Some(ls) => Some(FormData(title.s, description.s, priority.s, dueDate.s, assigneeId.s, ls))
      case None => None
    else None
  }

  /** `FormOf` looks only at the six form keys. */
  lemma FormOfReadsFormKeys(t: Object, u: Object)
    requires Get(t, "title") == Get(u, "title") && Get(t, "description") == Get(u, "description")
    requires Get(t, "priority") == Get(u, "priority") && Get(t, "dueDate") == Get(u, "dueDate")
    requires Get(t, "assigneeId") == Get(u, "assigneeId") && Get(t, "labels") == Get(u, "labels")
    ensures FormOf(t) == FormOf(u)
  {
  }

  lemma FormOfFormObject(f: FormData)
    ensures FormOf(FormObject(f)) == Some(f)
  {
    StringItemsOfStrArr(f.labels);
  }

  /** The created task carries every form field unchanged. */
  lemma NewTaskCarriesForm(f: FormData, draw: nat, createdAt: string)
    requires draw < 1000
    ensures FormOf(NewTask(f, draw, createdAt)) == Some(f)
  {
    var head := map["id" := Str("task-" + JsStrings.NatText(draw))];
    SpreadFormReadsBack(head, f, Assignee(f.assigneeId), Str(createdAt));
  }

  /** Spreading the form between an id and the two added fields leaves the form readable. */
  lemma SpreadFormReadsBack(head: Object, f: FormData, assignee: Json, createdAt: Json)
    ensures FormOf(head + FormObject(f) + map["assignee" := assignee, "createdAt" := createdAt]) == Some(f)
  {
    var form := FormObject(f);
    var tail := map["assignee" := assignee, "createdAt" := createdAt];
    MiddleWins(head, form, tail, "title");
    MiddleWins(head, form, tail, "description");
    MiddleWins(head, form, tail, "priority");
    MiddleWins(head, form, tail, "dueDate");
    MiddleWins(head, form, tail, "assigneeId");
    MiddleWins(head, form, tail, "labels");
    FormOfReadsFormKeys(head + form + tail, form);
    FormOfFormObject(f);
  }

  /** In `{...a, ...b, ...c}` a key that `b` has and `c` lacks reads as in `b`. */
  lemma MiddleWins(a: Object, b: Object, c: Object, k: string)
    requires k in b && k !in c
    ensures Get(a + b + c, k) == Get(b, k)
  {
  }

  class Form {
    var formData: FormData
    var isLoading: bool

    constructor()
      ensures formData == InitialForm && !isLoading
    {
      formData := InitialForm;
      isLoading := false;
    }

    method HandleChange(field: TextField, value: string)
      modifies this
      ensures formData == SetField(old(formData), field, value) && isLoading == old(isLoading)
    {
      formData := SetField(formData, field, value);
    }

    /** A click on a team member's button. */
    method SelectAssignee(memberId: string)
      modifies this
      ensures formData == old(formData).(assigneeId := memberId) && isLoading == old(isLoading)
    {
      formData := formData.(assigneeId := memberId);
    }

    method ToggleLabel(tag: string)
      modifies this
      ensures formData == old(formData).(labels := Toggled(old(formData).labels, tag))
      ensures isLoading == old(isLoading)
    {
      formData := formData.(labels := Toggled(formData.labels, tag));
    }

    /**
     * Submit: a form missing its title, description or due date is left
     * alone; otherwise the new task is handed over (after which the modal is
     * closed), the form is reset and loading ends.
     */
    method HandleSubmit(draw: nat, createdAt: string) returns (created: Option<Object>)
      requires draw < 1000
      modifies this
      ensures !CanSubmit(old(formData)) ==> created == None && formData == old(formData) && isLoading == old(isLoading)
      ensures CanSubmit(old(formData)) ==> created == Some(NewTask(old(formData), draw, createdAt))
      ensures CanSubmit(old(formData)) ==> formData == InitialForm && !isLoading
    {
      if !CanSubmit(formData) {
        return None;
      }
      isLoading := true;
      created := Some(NewTask(formData, draw, createdAt));
      formData := InitialForm;
      isLoading := false;
    }
  }
}
