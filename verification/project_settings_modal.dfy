/**
 * Frontend/src/components/project/ProjectSettingsModal.jsx: the settings form
 * of a project, its title validation, the update submit, and the two-click
 * delete confirmation.
 */
module ProjectSettingsModal {
  import opened Wrappers
  import opened JsValues
  import JsStrings

  datatype SettingsForm = SettingsForm(title: string, description: string, dueDate: string, tags: Json)

  datatype Field = TitleField | DescriptionField | DueDateField

  const EmptyForm := SettingsForm("", "", "", Arr([]))
  const TitleRequired := "Title is required"
  const UpdateFailed := "Failed to update project. Please try again."
  const DeleteFailed := "Failed to delete project. Please try again."

  /** A string prop, or "" when it is absent or falsy. */
  function TextOr(v: Json): (s: string)
    ensures v.Str? ==> s == v.s
    ensures !v.Str? ==> s == ""
  {
    if v.Str? then v.s else ""
  }

  /**
   * The form filled from a project when the modal opens. `dueDay` is the
   * due date already rendered as a `YYYY-MM-DD` day.
   */
  function FormFromProject(project: Object, dueDay: string): (f: SettingsForm)
    ensures !Truthy(Get(project, "title")) ==> f.title == ""
    ensures !Truthy(Get(project, "description")) ==> f.description == ""
    ensures Get(project, "title").Str? ==> f.title == Get(project, "title").s
    ensures Get(project, "description").Str? ==> f.description == Get(project, "description").s
    ensures f.dueDate == (if Truthy(Get(project, "dueDate")) then dueDay else "")
    ensures f.tags == (if Truthy(Get(project, "tags")) then Get(project, "tags") else Arr([]))
  {
    SettingsForm(
      TextOr(Get(project, "title")),
      TextOr(Get(project, "description")),
      if Truthy(Get(project, "dueDate")) then dueDay else "",
      Or(Get(project, "tags"), Arr([])))
  }

  /** `validateForm`: the errors of the form, by field. */
  function ValidateForm(f: SettingsForm): (errors: map<string, string>)
    ensures errors.Keys <= {"title"}
    ensures "title" in errors ==> errors["title"] == TitleRequired
  {
    if JsStrings.IsBlank(f.title) then map["title" := TitleRequired] else map[]
  }

  /** There is an error exactly when the title is empty or whitespace only, and then it is the title error. */
  lemma ValidateFormIffBlankTitle(f: SettingsForm)
    ensures |ValidateForm(f)| > 0 <==> JsStrings.Trim(f.title) == ""
    ensures |ValidateForm(f)| > 0 ==> ValidateForm(f) == map["title" := TitleRequired]
  {
    JsStrings.BlankIffTrimEmpty(f.title);
  }

  /** The project sent to the parent: the original with the form's fields written over it. */
  function UpdatedProject(project: Option<Object>, f: SettingsForm): (p: Object)
    ensures Get(p, "title") == Str(f.title) && Get(p, "description") == Str(f.description) && Get(p, "tags") == f.tags
    ensures Get(p, "dueDate") == (if f.dueDate == "" then Null else Str(f.dueDate))
    ensures project.Some? ==> forall k :: k in project.value && k !in {"title", "description", "dueDate", "tags"} ==> k in p && p[k] == project.value[k]
    ensures project.None? ==> p.Keys == {"title", "description", "dueDate", "tags"}
  {
    (if project.Some? then project.value else map[])
      + map["title" := Str(f.title), "description" := Str(f.description),
            "dueDate" := (if f.dueDate == "" then Null else Str(f.dueDate)), "tags" := f.tags]
  }

  /** The id handed to the delete callback: `_id` when truthy, else `id`. */
  function DeleteTarget(project: Object): (v: Json)
    ensures Truthy(Get(project, "_id")) ==> v == Get(project, "_id")
    ensures !Truthy(Get(project, "_id")) ==> v == Get(project, "id")
  {
    Or(Get(project, "_id"), Get(project, "id"))
  }

  class Modal {
    var project: Option<Object>
    var formData: SettingsForm
    var confirmDelete: bool
    var isSubmitting: bool
    var errors: map<string, string>

    constructor(project: Option<Object>)
      ensures this.project == project && formData == EmptyForm && !confirmDelete && !isSubmitting && errors == map[]
    {
      this.project := project;
      formData := EmptyForm;
      confirmDelete := false;
      isSubmitting := false;
      errors := map[];
    }

    /** The effect on `[project, isOpen]`: refill the form from an open modal's project. */
    method Initialize(isOpen: bool, dueDay: string)
      modifies this
      ensures formData == (if project.Some? && isOpen then FormFromProject(project.value, dueDay) else old(formData))
      ensures project == old(project) && confirmDelete == old(confirmDelete)
      ensures isSubmitting == old(isSubmitting) && errors == old(errors)
    {
      if project.Some? && isOpen {
        formData := FormFromProject(project.value, dueDay);
      }
    }

    method HandleChange(field: Field, value: string)
      modifies this
      ensures field == TitleField ==> formData == old(formData).(title := value)
      ensures field == DescriptionField ==> formData == old(formData).(description := value)
      ensures field == DueDateField ==> formData == old(formData).(dueDate := value)
      ensures project == old(project) && confirmDelete == old(confirmDelete)
      ensures isSubmitting == old(isSubmitting) && errors == old(errors)
    {
      match field
      case TitleField => formData := formData.(title := value);
      case DescriptionField => formData := formData.(description := value);
      case DueDateField => formData := formData.(dueDate := value);
    }

    /**
     * Submit: a blank title sets the errors and stops. Otherwise the updated
     * project goes to the parent; a failure records a submit error. Earlier
     * errors are not cleared by a successful update.
     */
    method HandleSubmit(parentSucceeds: bool) returns (sent: Option<Object>, closed: bool)
      modifies this
      ensures |ValidateForm(old(formData))| > 0 ==>
        errors == ValidateForm(old(formData)) && sent == None && !closed && isSubmitting == old(isSubmitting)
      ensures |ValidateForm(old(formData))| == 0 ==> sent == Some(UpdatedProject(project, formData)) && !isSubmitting
      ensures |ValidateForm(old(formData))| == 0 && parentSucceeds ==> closed && errors == old(errors)
      ensures |ValidateForm(old(formData))| == 0 && !parentSucceeds ==> !closed && errors == map["submit" := UpdateFailed]
      ensures formData == old(formData) && project == old(project) && confirmDelete == old(confirmDelete)
    {
      var newErrors := ValidateForm(formData);
      if |newErrors| > 0 {
        errors := newErrors;
        return None, false;
      }
      sent, closed := SubmitValid(parentSucceeds);
    }

    /** The update call, once the form has passed validation. */
    method SubmitValid(parentSucceeds: bool) returns (sent: Option<Object>, closed: bool)
      modifies this
      ensures sent == Some(UpdatedProject(project, formData)) && !isSubmitting && closed == parentSucceeds
      ensures errors == (if parentSucceeds then old(errors) else map["submit" := UpdateFailed])
      ensures formData == old(formData) && project == old(project) && confirmDelete == old(confirmDelete)
    {
      isSubmitting := true;
      sent := Some(UpdatedProject(project, formData));
      closed := parentSucceeds;
      if !parentSucceeds {
        errors := map["submit" := UpdateFailed];
      }
      isSubmitting := false;
    }

    /**
     * Delete: the first click only arms the confirmation. The second calls
     * the parent with the project's id (reading it from a missing project
     * throws, which is reported like a failed delete); afterwards the
     * confirmation is disarmed whatever happened.
     */
    method HandleDelete(parentSucceeds: bool) returns (deleted: Option<Json>, closed: bool)
      modifies this
      ensures !old(confirmDelete) ==> confirmDelete && deleted == None && !closed
      ensures !old(confirmDelete) ==> errors == old(errors) && isSubmitting == old(isSubmitting)
      ensures old(confirmDelete) ==> !confirmDelete && !isSubmitting
      ensures old(confirmDelete) ==> deleted == (if project.Some? then Some(DeleteTarget(project.value)) else None)
      ensures old(confirmDelete) ==> closed == (project.Some? && parentSucceeds)
      ensures old(confirmDelete) ==> errors == (if closed then old(errors) else map["submit" := DeleteFailed])
      ensures formData == old(formData) && project == old(project)
    {
      deleted := None;
      closed := false;
      if !confirmDelete {
        confirmDelete := true;
        return;
      }
      isSubmitting := true;
      if project.Some? {
        deleted := Some(DeleteTarget(project.value));
        closed := parentSucceeds;
      }
      if !closed {
        errors := map["submit" := DeleteFailed];
      }
      isSubmitting := false;
      confirmDelete := false;
    }
  }
}
