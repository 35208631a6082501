/**
 * What the frontend sends and what the backend schema accepts: the label
 * buttons of the add-task form and the statuses the task service maps its
 * column keys to fall inside the schema's enumerations.
 */
module Consistency {
  import TaskModel
  import TaskService
  import AddTaskModal

  /** Every label button of the add-task form offers a label the schema accepts. */
  lemma OfferedLabelsAccepted()
    ensures forall i :: 0 <= i < |AddTaskModal.AvailableLabels| ==> TaskModel.KnownLabel(AddTaskModal.AvailableLabels[i])
  {
    assert AddTaskModal.AvailableLabels == TaskModel.LabelVocabulary;
  }

  /**
   * The status the service sends is one the schema's enumeration lists
   * exactly when the column key is one of the three mapped keys or already
   * a schema status; any other key is passed through and the schema rejects it.
   */
  lemma MappedStatusAccepted(key: string)
    ensures TaskService.GetBackendStatus(key) in TaskModel.Statuses <==>
      key in TaskService.FrontendKeys || key in TaskModel.Statuses
  {
    TaskService.BackendStatusTable(key);
    if key in TaskService.FrontendKeys {
      var s := TaskModel.Statuses;
      assert s[0] == "To Do" && s[1] == "In Progress" && s[2] == "Done";
      assert key == "todo" || key == "in-progress" || key == "done";
      assert TaskService.GetBackendStatus(key) in s;
    } else {
      assert TaskService.GetBackendStatus(key) == key;
    }
  }
}
