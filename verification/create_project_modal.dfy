/**
 * Frontend/src/components/dashboard/CreateProjectModal.jsx: the three-field
 * project form, its change handler, the submit that hands a copy of the form
 * to the parent, and the disabled state of the create button.
 */
module CreateProjectModal {
  import opened Wrappers

  datatype ProjectForm = ProjectForm(title: string, description: string, dueDate: string)

  datatype Field = TitleField | DescriptionField | DueDateField

  const EmptyForm := ProjectForm("", "", "")

  function FieldValue(f: ProjectForm, field: Field): string {
    match field
    case TitleField => f.title
    case DescriptionField => f.description
    case DueDateField => f.dueDate
  }

  /** `handleChange`: only the named field changes. */
  function SetField(f: ProjectForm, field: Field, value: string): (r: ProjectForm)
    ensures FieldValue(r, field) == value
    ensures forall g :: g != field ==> FieldValue(r, g) == FieldValue(f, g)
  {
    match field
    case TitleField => f.(title := value)
    case DescriptionField => f.(description := value)
    case DueDateField => f.(dueDate := value)
  }

  /** The create button's `disabled`: some field is empty. */
  predicate CreateDisabled(f: ProjectForm) {
    f.title == "" || f.description == "" || f.dueDate == ""
  }

  /** The button is disabled exactly when some field is empty. */
  lemma DisabledIffSomeFieldEmpty(f: ProjectForm)
    ensures CreateDisabled(f) <==> exists g :: FieldValue(f, g) == ""
  {
    if CreateDisabled(f) {
      if f.title == "" {
        assert FieldValue(f, TitleField) == "";
      } else if f.description == "" {
        assert FieldValue(f, DescriptionField) == "";
      } else {
        assert FieldValue(f, DueDateField) == "";
      }
    }
  }

  class Modal {
    var formData: ProjectForm
    var isLoading: bool

    constructor()
      ensures formData == EmptyForm && !isLoading
    {
      formData := EmptyForm;
      isLoading := false;
    }

    method HandleChange(field: Field, value: string)
      modifies this
      ensures formData == SetField(old(formData), field, value) && isLoading == old(isLoading)
    {
      formData := SetField(formData, field, value);
    }

    /**
     * Submit: nothing happens while a field is empty. Otherwise the parent
     * receives a copy of the form; if it succeeds the form is cleared and the
     * modal closes, if it throws the form is kept open. Loading ends either way.
     */
    method HandleSubmit(parentSucceeds: bool) returns (submitted: Option<ProjectForm>, closed: bool)
      modifies this
      ensures CreateDisabled(old(formData)) ==> submitted == None && !closed && formData == old(formData) && isLoading == old(isLoading)
      ensures !CreateDisabled(old(formData)) ==> submitted == Some(old(formData)) && !isLoading
      ensures !CreateDisabled(old(formData)) && parentSucceeds ==> formData == EmptyForm && closed
      ensures !CreateDisabled(old(formData)) && !parentSucceeds ==> formData == old(formData) && !closed
    {
      closed := false;
      if CreateDisabled(formData) {
        return None, false;
      }
      isLoading := true;
      submitted := Some(formData);
      if parentSucceeds {
        formData := EmptyForm;
        closed := true;
      }
      isLoading := false;
    }
  }
}
