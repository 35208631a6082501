# TaskBoard Pro — a Dafny model of its task, project and automation logic

TaskBoard Pro is a kanban-style project manager: a React frontend with a
Node/Mongo backend. It has no algorithmic engine. Its behaviour is a set of
small, self-contained pieces of logic:

- translating between kanban column keys and task statuses, and shaping the
  task payloads sent to the backend;
- the task schema's constraints and its pre-save hook;
- moving and adding tasks on the kanban board;
- the add-task, invite-member, create-project and project-settings forms;
- the in-memory project store;
- automation rules, which are only created, previewed and deleted;
- dashboard search, the navbar's unread badge and menus;
- the sign-up password gate and the mock authentication context;
- the project card's derived values.

This project models each of these pieces in Dafny and proves what they
promise.

One Dafny module models one source file:

- A source file that keeps React state becomes a `class`. Its fields are the
  `useState` variables, and each handler is a method with a `modifies this`
  clause.
- A source file that only computes becomes functions and lemmas.

Four shared modules model the JavaScript the code relies on:

- `Wrappers`: `Option` and `Result`.
- `JsValues`: plain objects and their spread, truthiness, `||` and `String(v)`.
- `JsStrings`: `trim`, ASCII `toLowerCase`, `includes`, `indexOf`,
  `replace` of the first occurrence, `split`/`join`, decimal text and
  `encodeURIComponent`.
- `Seqs`: `filter`, `find` and `findIndex`.

The fixed sample data of `assets/mockData.jsx` is in `MockData`. `Consistency`
relates what the frontend sends to what the backend schema accepts.

Some outside effects become parameters:

- HTTP and identity-provider calls become an outcome parameter (`Result`).
- A parent's callback becomes a boolean that says whether it succeeded.
- `Math.floor(Math.random() * 1000)` becomes a `draw` below 1000.
- Clock readings and locale-formatted dates become opaque parameters.
- A `setTimeout` callback runs as part of its handler, or as its own method
  when the source runs it on its own (clearing a success message, ending
  the auth check).

The code is followed throughout. The rule model in particular is what the
code has: rules are created, previewed and deleted, and no code evaluates
them. So no rule evaluator, firing order or cycle guard is modelled.

## Model

| member | source | states |
|---|---|---|
| TaskService.LookupKey | Frontend/src/services/taskService.js:4-11 | `statusMapping[key]` finds the value paired with the key, and nothing exactly when no entry has that key |
| TaskService.ReverseLookup | Frontend/src/services/taskService.js:16-18 | the reverse loop returns the key of an entry holding the value, and nothing exactly when no entry holds it |
| TaskService.BackendStatusTable | Frontend/src/services/taskService.js:4-12 | "todo", "in-progress" and "done" map to "To Do", "In Progress" and "Done"; any other string is returned unchanged |
| TaskService.LookupFirstMatch | Frontend/src/services/taskService.js:11 | a key lookup returns the value of the first entry with that key |
| TaskService.GetBackendStatus | Frontend/src/services/taskService.js:10-12 | the mapped status, or the input itself when unmapped; its values are stated by `BackendStatusTable` |
| TaskService.DashRunsRemovesSpace | Frontend/src/services/taskService.js:19 | after `replace(/\s+/g, '-')` no whitespace is left, and a string without whitespace is unchanged |
| TaskService.SkipSpace | Frontend/src/services/taskService.js:19 | the rest of a string after its leading whitespace run is a suffix that starts with no whitespace |
| TaskService.DashRuns | Frontend/src/services/taskService.js:19 | `replace(/\s+/g, '-')`: a whitespace run becomes one '-'; its properties are stated by `DashRunsRemovesSpace` and `DashRunsShortens` |
| TaskService.DashRunsShortens | Frontend/src/services/taskService.js:19 | the replacement never lengthens a string, and gives the empty string only for the empty string |
| TaskService.Slug | Frontend/src/services/taskService.js:19 | the lower-cased status with its whitespace runs replaced; see `SlugHasNoSpace` and `SlugOfToDo` |
| TaskService.SlugHasNoSpace | Frontend/src/services/taskService.js:19 | the fallback slug of `getFrontendStatus` never contains whitespace |
| TaskService.GetFrontendStatus | Frontend/src/services/taskService.js:14-20 | the result is a column key or the slug of the status |
| TaskService.FrontendRoundTrip | Frontend/src/services/taskService.js:10-20 | a column key mapped to the backend and back is the same key |
| TaskService.BackendRoundTrip | Frontend/src/services/taskService.js:10-20 | a backend status mapped to its column key and back is the same status |
| TaskService.BackendStatusIdempotent | Frontend/src/services/taskService.js:10-12 | mapping a status twice gives the same as mapping it once |
| TaskService.DashRunsOfToDo | Frontend/src/services/taskService.js:19 | the whitespace replacement turns "to do" into "to-do" |
| TaskService.SlugOfToDo | Frontend/src/services/taskService.js:19 | "To Do" lower-cases and slugs to "to-do" |
| TaskService.ReverseLookupBeforeSlug | Frontend/src/services/taskService.js:14-20 | the reverse mapping wins over the slug: "To Do" becomes the column "todo", not its slug "to-do" |
| TaskService.UnmappedStatusIsSlug | Frontend/src/services/taskService.js:14-20 | a status with no reverse mapping becomes its slug, which has no whitespace |
| TaskService.MapStatusValue | Frontend/src/services/taskService.js:34-46 | a value that is not a string, or a string that is not a column key, is sent unchanged; a column key becomes a backend status |
| TaskService.CreateTaskPayload | Frontend/src/services/taskService.js:32-37 | the payload keeps every other field; `status` is undefined when falsy and the mapped backend status when it is a string |
| TaskService.UpdateTaskPayload | Frontend/src/services/taskService.js:42-47 | the copy has the same keys and keeps every other field; a falsy status leaves it unchanged, a string status is mapped |
| TaskService.UpdateTaskPayloadIdempotent | Frontend/src/services/taskService.js:42-47 | shaping an update payload a second time changes nothing more |
| TaskService.MoveTaskPayload | Frontend/src/services/taskService.js:67-69 | the body has only `status`; a column key becomes one of the three backend statuses and any other string is sent unchanged |
| TaskService.DeleteTaskOutcome | Frontend/src/services/taskService.js:52-65 | the call fails exactly when it failed with something other than a 404, and then with the same error; a 404 becomes a `success` reply |
| TaskService.RepeatedDeleteSucceeds | Frontend/src/services/taskService.js:52-65 | a successful delete stays successful, and a second delete of the same task that gets a 404 succeeds too |
| TaskModel.KnownLabel | Backend/models/taskModel.js:47 | the label enum: one of the nine label words |
| TaskModel.IsObjectIdText | Backend/models/taskModel.js:14 | the ObjectId cast of a project id given as text: exactly 24 hexadecimal digits |
| TaskModel.TrimAll | Backend/models/taskModel.js:44-48 | every label is trimmed, and there are as many labels as before |
| TaskModel.LabelViolations | Backend/models/taskModel.js:44-48 | a label is reported exactly at the positions whose value is outside the nine-word enumeration; none are reported iff all are known |
| TaskModel.ValidTask | Backend/models/taskModel.js:3-65 | the schema's acceptance rule: trimmed non-empty title, trimmed description, 24-hex-digit project id, a status among the three, a priority among the three or null, known trimmed labels and a creator |
| TaskModel.Cast | Backend/models/taskModel.js:3-65 | strings trimmed, defaults applied to missing fields only, a null defaulted field kept null; stated by `CastIsTrimmed`, `Defaults` and `ValidRoundTrip` |
| TaskModel.Violations | Backend/models/taskModel.js:3-65 | the failing paths in schema order; `Validate` accepts exactly when there are none, and `NullStatusReported`, `NullPriorityAccepted`, `UnknownLabelRejected` state single paths |
| TaskModel.Validate | Backend/models/taskModel.js:3-65 | a document is accepted exactly when its cast value is `ValidTask`: every required field present (a null status included), the project id an ObjectId, each enumeration respected; an accepted document is the cast one and a rejection names at least one path |
| TaskModel.CastIsTrimmed | Backend/models/taskModel.js:4-12 | title, description and labels are stored trimmed |
| TaskModel.TitleRequired | Backend/models/taskModel.js:4-8 | a missing or blank title is rejected at the path `title` |
| TaskModel.ProjectAndCreatorRequired | Backend/models/taskModel.js:13-17 | a missing project id, one that is not the text of an ObjectId, or a missing creator is rejected at its path |
| TaskModel.Defaults | Backend/models/taskModel.js:18-28 | a missing status becomes "To Do", a missing priority "medium" and a missing timestamp the current time, the defaults being allowed values; a null status is rejected at `status`, a null priority or timestamp stays null and a null priority is not reported |
| TaskModel.NullStatusReported | Backend/models/taskModel.js:18-23 | a null status fails `required` on the path `status` |
| TaskModel.NullPriorityAccepted | Backend/models/taskModel.js:24-28 | the enumeration check lets a null priority through |
| TaskModel.UnknownLabelRejected | Backend/models/taskModel.js:44-48 | a label outside the enumeration is rejected at its own index |
| TaskModel.ValidRoundTrip | Backend/models/taskModel.js:3-65 | a valid task submitted again is accepted unchanged |
| TaskModel.TaskDocument.constructor | Backend/models/taskModel.js:72 | a document holds the given task |
| TaskModel.TaskDocument.PreSave | Backend/models/taskModel.js:67-70 | saving stamps `updatedAt` with the current time, changes nothing else and keeps a valid task valid |
| KanbanBoard.HasId | Frontend/src/components/project/KanbanBoard.jsx:59 | the test `t.id === taskId` for the string id read back from the drag data, also used by the filter at line 66 |
| KanbanBoard.Dragged | Frontend/src/components/project/KanbanBoard.jsx:59 | a task is found exactly when the column holds one with that id, and it is the first such task |
| KanbanBoard.RemoveTask | Frontend/src/components/project/KanbanBoard.jsx:66 | the source column keeps, in order, exactly the tasks without that id, each as often as it occurred |
| KanbanBoard.Drop | Frontend/src/components/project/KanbanBoard.jsx:48-76 | a drop on the same column or of a task no longer there changes nothing; otherwise the task leaves its column and is appended to the target, and other columns are untouched |
| KanbanBoard.DraggedTaskIsFound | Frontend/src/components/project/KanbanBoard.jsx:38-59 | the id text a drag carries finds the dragged task again when ids are unique |
| KanbanBoard.MoveRelocatesTask | Frontend/src/components/project/KanbanBoard.jsx:48-76 | with unique ids, the moved task ends the target column and no task with its id remains at the source |
| KanbanBoard.TotalUpdate | Frontend/src/components/project/KanbanBoard.jsx:69-73 | changing the size of one listed column changes the total by the same amount |
| KanbanBoard.TotalFrame | Frontend/src/components/project/KanbanBoard.jsx:69-73 | columns of equal sizes have equal totals |
| KanbanBoard.RemoveOnlyOne | Frontend/src/components/project/KanbanBoard.jsx:66 | removing the only task with an id shortens its column by exactly one |
| KanbanBoard.DropSizes | Frontend/src/components/project/KanbanBoard.jsx:64-73 | a drop that moves a task shortens the source column by one, lengthens the target by one and leaves other sizes alone |
| KanbanBoard.MoveOneKeepsTotal | Frontend/src/components/project/KanbanBoard.jsx:64-73 | one task fewer in one listed column and one more in another leaves the total unchanged |
| KanbanBoard.DropKeepsTotal | Frontend/src/components/project/KanbanBoard.jsx:48-76 | with unique ids in the source column, a drop neither loses nor duplicates a task |
| KanbanBoard.Board.constructor | Frontend/src/components/project/KanbanBoard.jsx:11-15 | the board starts from the sample tasks, with the modal closed and nothing being dragged |
| KanbanBoard.Board.HandleAddTask | Frontend/src/components/project/KanbanBoard.jsx:17-20 | the column is remembered and the add-task modal opens |
| KanbanBoard.Board.CloseAddTaskModal | Frontend/src/components/project/KanbanBoard.jsx:142 | the modal closes and nothing else changes |
| KanbanBoard.Board.HandleTaskCreated | Frontend/src/components/project/KanbanBoard.jsx:22-27 | the new task is appended to the column the modal was opened for; no other column changes |
| KanbanBoard.Board.HandleDragStart | Frontend/src/components/project/KanbanBoard.jsx:38-42 | the drag carries the task's id as text and its column, and the board is dragging |
| KanbanBoard.Board.HandleDrop | Frontend/src/components/project/KanbanBoard.jsx:48-76 | the columns become `Drop` of the old columns, and dragging ends on every path |
| AddTaskModal.SetField | Frontend/src/components/project/AddTaskModal.jsx:34-37 | the named field takes the value and every other field is kept |
| AddTaskModal.Toggled | Frontend/src/components/project/AddTaskModal.jsx:39-46 | a present label is removed everywhere and every other label kept in order, as often as it occurred; an absent label is appended |
| AddTaskModal.ToggleAbsentTwice | Frontend/src/components/project/AddTaskModal.jsx:39-46 | toggling an absent label twice restores the labels |
| AddTaskModal.CanSubmit | Frontend/src/components/project/AddTaskModal.jsx:51 | the submit guard, whose negation is the button's `disabled` (line 94): title, description and due date all non-empty |
| AddTaskModal.Assignee | Frontend/src/components/project/AddTaskModal.jsx:59 | the assignee is the team member with that id, and undefined exactly when there is none |
| AddTaskModal.NewTask | Frontend/src/components/project/AddTaskModal.jsx:61-66 | the task's id is "task-" and the draw, with the chosen assignee and the creation time |
| AddTaskModal.StringItems | Frontend/src/components/project/AddTaskModal.jsx:18 | reading an array of strings back gives one string per item |
| AddTaskModal.StringItemsOfStrArr | Frontend/src/components/project/AddTaskModal.jsx:18 | an array built from strings reads back as the same strings |
| AddTaskModal.FormOfReadsFormKeys | Frontend/src/components/project/AddTaskModal.jsx:61-66 | reading the form back looks only at the six form keys |
| AddTaskModal.FormOfFormObject | Frontend/src/components/project/AddTaskModal.jsx:12-19 | the form as an object reads back as the same form |
| AddTaskModal.NewTaskCarriesForm | Frontend/src/components/project/AddTaskModal.jsx:61-66 | the created task carries every form field unchanged |
| AddTaskModal.Form.constructor | Frontend/src/components/project/AddTaskModal.jsx:12-21 | the form starts empty, with priority "medium", assignee "1" and no labels |
| AddTaskModal.Form.HandleChange | Frontend/src/components/project/AddTaskModal.jsx:34-37 | the form becomes the old form with that field set |
| AddTaskModal.Form.SelectAssignee | Frontend/src/components/project/AddTaskModal.jsx:191 | only the assignee id changes |
| AddTaskModal.Form.ToggleLabel | Frontend/src/components/project/AddTaskModal.jsx:39-46 | only the labels change, to their toggled value |
| AddTaskModal.Form.HandleSubmit | Frontend/src/components/project/AddTaskModal.jsx:48-83 | without a title, description or due date nothing happens; otherwise the new task is handed over and the form is reset |
| InviteMemberModal.MatchesMember | Frontend/src/components/project/InviteMemberModal.jsx:38-40 | a member matches a found user when the emails, the member's userId and the user's uid, or the ids are strictly equal; two absent fields compare equal |
| InviteMemberModal.AlreadyMember | Frontend/src/components/project/InviteMemberModal.jsx:37-41 | `members.some(...)`: some member matches the user |
| InviteMemberModal.FilterResults | Frontend/src/components/project/InviteMemberModal.jsx:36-42 | a non-array result gives no users; the error path is taken exactly when a nullish user meets at least one member; otherwise the kept users are, in order and as often as returned, those no member matches by email, user id or id |
| InviteMemberModal.NoMembersKeepsAll | Frontend/src/components/project/InviteMemberModal.jsx:36-42 | with no members every user found is kept |
| InviteMemberModal.AbsentEmailsMatch | Frontend/src/components/project/InviteMemberModal.jsx:37-41 | a member and a user that both lack an email match, since undefined equals undefined |
| InviteMemberModal.RemoveMembers | Frontend/src/components/project/InviteMemberModal.jsx:105-107 | the members left are exactly those whose user id and id both differ from the removed one, in order and as often as they occurred |
| InviteMemberModal.RemoveAbsentIsNoOp | Frontend/src/components/project/InviteMemberModal.jsx:105-107 | removing an id no member has changes nothing |
| InviteMemberModal.EmailName | Frontend/src/components/project/InviteMemberModal.jsx:73 | the part of the email before its first '@', or the whole email when there is none |
| InviteMemberModal.RebuildMember | Frontend/src/components/project/InviteMemberModal.jsx:69-76 | a member is rebuilt with id and userId from its user id, its email and role, its name or the email's name part, and its photo or else the ui-avatars address of its encoded email; a null member or a missing name with a non-string email is the error path |
| InviteMemberModal.RebuildMembers | Frontend/src/components/project/InviteMemberModal.jsx:69-76 | every member is rebuilt in order, and the whole rebuild fails exactly when one member's does |
| InviteMemberModal.ErrorMessage | Frontend/src/components/project/InviteMemberModal.jsx:92 | the server's message when it is truthy, and the fallback text otherwise, which makes the error truthy whenever the fallback is non-empty |
| InviteMemberModal.Modal.constructor | Frontend/src/components/project/InviteMemberModal.jsx:10-16 | the modal starts with no search, no members, no error and no message |
| InviteMemberModal.Modal.InitMembers | Frontend/src/components/project/InviteMemberModal.jsx:19-23 | a non-empty member list replaces the members; an empty one keeps them |
| InviteMemberModal.Modal.SetSearchEmail | Frontend/src/components/project/InviteMemberModal.jsx:10 | only the search text changes |
| InviteMemberModal.Modal.HandleSearch | Frontend/src/components/project/InviteMemberModal.jsx:25-53 | a blank search changes nothing; otherwise the results are the filtered users or, on failure, empty with the search error, and loading ends |
| InviteMemberModal.Modal.RunSearch | Frontend/src/components/project/InviteMemberModal.jsx:30-52 | loading ends and the error is cleared; the results are the returned users who are not yet members and the search is marked as done, or on failure the results are emptied and the search error is set |
| InviteMemberModal.Modal.HandleInvite | Frontend/src/components/project/InviteMemberModal.jsx:55-96 | an answered call clears the search and shows the invite message, even when the reply is null, which then ends in the fallback error; otherwise the rebuilt members replace the list and are reported; a failure shows the server's or the fallback error; loading ends |
| InviteMemberModal.Modal.HandleRemoveMember | Frontend/src/components/project/InviteMemberModal.jsx:98-127 | a success removes the member, reports the new list and shows the removal message; a failure keeps the members and shows the removal error |
| InviteMemberModal.Modal.ClearSuccessMessage | Frontend/src/components/project/InviteMemberModal.jsx:87-89 | the success message is cleared and nothing else changes |
| ProjectsApi.HasId | Frontend/src/api/projects.js:94 | the test `p.id === projectId` for a string id, shared by the lookups at lines 94 and 129 |
| ProjectsApi.IndexOfProject | Frontend/src/api/projects.js:129 | the index of the first project with the id, and none exactly when no project has it |
| ProjectsApi.NewProject | Frontend/src/api/projects.js:110-115 | a new project has the generated id unless the data brings one, all the data's fields, an empty task list and the creation time |
| ProjectsApi.Merge | Frontend/src/api/projects.js:132-136 | update fields win, the other fields are kept, and `updatedAt` is stamped |
| ProjectsApi.Updated | Frontend/src/api/projects.js:129-136 | only the first project with the id is replaced by its merge; without one the store is unchanged |
| ProjectsApi.UpdateThenFind | Frontend/src/api/projects.js:125-143 | a project updated without changing its id is found again at the same place |
| ProjectsApi.CreateThenFind | Frontend/src/api/projects.js:106-122 | a created project with a fresh id is found under it as the last entry |
| ProjectsApi.Store.constructor | Frontend/src/api/projects.js:3-77 | the store starts with its seed projects |
| ProjectsApi.Store.GetProjects | Frontend/src/api/projects.js:80-87 | all stored projects are returned |
| ProjectsApi.Store.GetProjectDetails | Frontend/src/api/projects.js:90-103 | the first project with the id, and "Project not found" exactly when there is none |
| ProjectsApi.Store.CreateProject | Frontend/src/api/projects.js:106-122 | the new project is appended and returned |
| ProjectsApi.Store.UpdateProject | Frontend/src/api/projects.js:125-143 | the store becomes its update and the merged project is returned, or "Project not found" with the store unchanged |
| AutomationPage.FindProject | Frontend/src/pages/AutomationPage.jsx:20 | the first project with the route's id, and none exactly when there is none |
| AutomationPage.WithoutRule | Frontend/src/pages/AutomationPage.jsx:32 | exactly the rules with another id are kept, in order and as often as they occurred |
| AutomationPage.DeleteAbsentIsNoOp | Frontend/src/pages/AutomationPage.jsx:31-33 | deleting an id no rule has changes nothing |
| AutomationPage.CreateThenDeleteRestores | Frontend/src/pages/AutomationPage.jsx:27-33 | creating a rule with a fresh id and deleting it restores the rules |
| AutomationPage.Page.constructor | Frontend/src/pages/AutomationPage.jsx:13-15 | the page starts loading, with no project and no rules, over the sample projects and rules |
| AutomationPage.Page.Load | Frontend/src/pages/AutomationPage.jsx:17-25 | the sample project with the route's id (none when there is none) and the sample rules are loaded, and loading ends |
| AutomationPage.Page.HandleCreateRule | Frontend/src/pages/AutomationPage.jsx:27-29 | the new rule is put first |
| AutomationPage.Page.HandleDeleteRule | Frontend/src/pages/AutomationPage.jsx:31-33 | the rules with that id are removed |
| RuleCreationForm.ConditionDefault | Frontend/src/components/automation/RuleCreationForm.jsx:55-59 | a condition type's first value, and undefined for an unknown type |
| RuleCreationForm.ActionDefault | Frontend/src/components/automation/RuleCreationForm.jsx:65-69 | an action type's first value id |
| RuleCreationForm.InitialStateListed | Frontend/src/components/automation/RuleCreationForm.jsx:12-37 | the initial condition and action are among the listed choices |
| RuleCreationForm.TypeChangeStaysListed | Frontend/src/components/automation/RuleCreationForm.jsx:55-69 | changing to a listed type selects a value listed for it |
| RuleCreationForm.NewRule | Frontend/src/components/automation/RuleCreationForm.jsx:44-49 | the rule keeps the name, condition and action, its id starts with "rule-", and it shows no testing warning |
| RuleCreationForm.FormAssignShowsId | Frontend/src/components/automation/RuleCreationForm.jsx:13-49 | a rule made from the initial assign action shows the member id "1", not a name |
| RuleCreationForm.Form.constructor | Frontend/src/components/automation/RuleCreationForm.jsx:11-13 | the form starts with no name, the high-priority condition and the assign-to-"1" action |
| RuleCreationForm.Form.HandleNameChange | Frontend/src/components/automation/RuleCreationForm.jsx:11 | only the name changes |
| RuleCreationForm.Form.HandleSubmit | Frontend/src/components/automation/RuleCreationForm.jsx:39-53 | without a name nothing is created; otherwise the rule is handed over and the name cleared |
| RuleCreationForm.Form.HandleConditionTypeChange | Frontend/src/components/automation/RuleCreationForm.jsx:55-59 | the condition becomes the type with its default value |
| RuleCreationForm.Form.HandleConditionValueChange | Frontend/src/components/automation/RuleCreationForm.jsx:61-63 | only the condition's value changes |
| RuleCreationForm.Form.HandleActionTypeChange | Frontend/src/components/automation/RuleCreationForm.jsx:65-69 | the action becomes the type with its default value |
| RuleCreationForm.Form.HandleActionValueChange | Frontend/src/components/automation/RuleCreationForm.jsx:71-73 | only the action's value changes |
| RulePreview.FormatCondition | Frontend/src/components/automation/RulePreview.jsx:27-50 | the value is shown as is; an unknown type is shown verbatim, a known one as a "Task …" caption |
| RulePreview.FormatAction | Frontend/src/components/automation/RulePreview.jsx:53-82 | an assign reads "Assign task to" with a member's name or the raw value; a move reads "Move task to" with its `MoveCaption`, one of the three backend statuses; a label reads "Add label" with the value; an unknown type is shown verbatim with the value |
| RulePreview.MoveCaption | Frontend/src/components/automation/RulePreview.jsx:64-71 | always a backend status: "To Do" exactly for "todo", "In Progress" exactly for "in-progress", "Done" otherwise |
| RulePreview.ConditionCaptions | Frontend/src/components/automation/RulePreview.jsx:31-43 | the captions of the three condition types |
| RulePreview.MoveAgreesWithStatusMapping | Frontend/src/components/automation/RulePreview.jsx:64-71 | a move to a column key shows the status the task service maps that key to |
| RulePreview.MoveFallsBackToDone | Frontend/src/components/automation/RulePreview.jsx:64-71 | a move to anything other than "todo" or "in-progress" shows "Done" |
| RulePreview.ShowsTestingWarning | Frontend/src/components/automation/RulePreview.jsx:123 | the warning is rendered exactly under the rule with id "r2" |
| RulePreview.GeneratedIdsNeverWarn | Frontend/src/components/automation/RulePreview.jsx:123-128 | a rule whose id starts with "rule-" never shows the testing warning |
| MockData.MockRuleWarnings | Frontend/src/assets/mockData.jsx:96-121 | of the two sample rules, only the second shows the testing warning |
| DashboardPage.Matches | Frontend/src/pages/DashboardPage.jsx:34-36 | the search test: the lowered title or the lowered description includes the lowered query |
| DashboardPage.SearchResults | Frontend/src/pages/DashboardPage.jsx:33-37 | exactly the projects whose title or description contains the query, ignoring ASCII case, in order and as often as they occur |
| DashboardPage.MockProjectsSearchable | Frontend/src/assets/mockData.jsx:1-40 | every sample project has a string title and description |
| DashboardPage.PaddingOnlyNarrows | Frontend/src/pages/DashboardPage.jsx:24-37 | a project that matches a padded query also matches it trimmed |
| DashboardPage.Page.constructor | Frontend/src/pages/DashboardPage.jsx:11-14 | the page shows the sample projects, with no query and the modal closed |
| DashboardPage.Page.OpenCreateModal | Frontend/src/pages/DashboardPage.jsx:11 | only the create modal opens |
| DashboardPage.Page.HandleCreateProject | Frontend/src/pages/DashboardPage.jsx:16-19 | the new project is put first and the modal closes |
| DashboardPage.Page.SetSearchQuery | Frontend/src/pages/DashboardPage.jsx:13 | only the query changes |
| DashboardPage.Page.HandleSearch | Frontend/src/pages/DashboardPage.jsx:21-42 | a blank query shows all sample projects; otherwise the search results are shown and loading ends |
| DashboardPage.Page.ResetSearch | Frontend/src/pages/DashboardPage.jsx:44-47 | the query is cleared and all sample projects are shown |
| CreateProjectModal.SetField | Frontend/src/components/dashboard/CreateProjectModal.jsx:34-37 | the named field takes the value and the others are kept |
| CreateProjectModal.CreateDisabled | Frontend/src/components/dashboard/CreateProjectModal.jsx:76 | the create button's `disabled`: some field is empty (see `DisabledIffSomeFieldEmpty`) |
| CreateProjectModal.DisabledIffSomeFieldEmpty | Frontend/src/components/dashboard/CreateProjectModal.jsx:76 | the create button is disabled exactly when some field is empty |
| CreateProjectModal.Modal.constructor | Frontend/src/components/dashboard/CreateProjectModal.jsx:22-28 | the form starts empty and not loading |
| CreateProjectModal.Modal.HandleChange | Frontend/src/components/dashboard/CreateProjectModal.jsx:34-37 | the form becomes the old form with that field set |
| CreateProjectModal.Modal.HandleSubmit | Frontend/src/components/dashboard/CreateProjectModal.jsx:43-65 | an incomplete form is left alone; otherwise it is handed over, and on success reset and closed, on failure kept open; loading ends |
| ProjectSettingsModal.TextOr | Frontend/src/components/project/ProjectSettingsModal.jsx:21-22 | a string field's text, and "" otherwise |
| ProjectSettingsModal.FormFromProject | Frontend/src/components/project/ProjectSettingsModal.jsx:18-27 | a string title and description are copied into the form and missing ones become ""; the due date is the rendered day when present and "" otherwise; tags are kept when truthy and an empty list otherwise |
| ProjectSettingsModal.ValidateForm | Frontend/src/components/project/ProjectSettingsModal.jsx:29-33 | the only possible error is "Title is required" at `title` (when it occurs: `ValidateFormIffBlankTitle`) |
| ProjectSettingsModal.ValidateFormIffBlankTitle | Frontend/src/components/project/ProjectSettingsModal.jsx:29-33 | there is an error exactly when the title is blank, and it is "Title is required" at `title` |
| ProjectSettingsModal.UpdatedProject | Frontend/src/components/project/ProjectSettingsModal.jsx:56-62 | the project's other fields are kept, the form's title, description and tags are set, and an empty due date becomes null |
| ProjectSettingsModal.DeleteTarget | Frontend/src/components/project/ProjectSettingsModal.jsx:82 | the deleted id is `_id` when truthy and `id` otherwise |
| ProjectSettingsModal.Modal.constructor | Frontend/src/components/project/ProjectSettingsModal.jsx:7-16 | the modal starts with an empty form, no confirmation and no errors |
| ProjectSettingsModal.Modal.Initialize | Frontend/src/components/project/ProjectSettingsModal.jsx:18-27 | the form is filled from the project only when there is one and the modal is open |
| ProjectSettingsModal.Modal.HandleChange | Frontend/src/components/project/ProjectSettingsModal.jsx:35-41 | only the named form field changes |
| ProjectSettingsModal.Modal.HandleSubmit | Frontend/src/components/project/ProjectSettingsModal.jsx:43-72 | a blank title sets the validation error and sends nothing; otherwise the updated project is sent, and a failure sets the update error |
| ProjectSettingsModal.Modal.SubmitValid | Frontend/src/components/project/ProjectSettingsModal.jsx:52-71 | the project with the form written over it is sent; the modal closes on success, a failure sets the update error, and submitting ends |
| ProjectSettingsModal.Modal.HandleDelete | Frontend/src/components/project/ProjectSettingsModal.jsx:74-91 | the first click only asks for confirmation; the second sends the delete, sets the error on failure and always resets the confirmation |
| DashboardNavbar.UnreadCount | Frontend/src/components/ui/DashboardNavbar.jsx:98 | the count is the length of the unread notifications and never more than all of them |
| DashboardNavbar.BadgeIffSomeUnread | Frontend/src/components/ui/DashboardNavbar.jsx:131-133 | the badge shows exactly when some notification is unread |
| DashboardNavbar.UnreadCountIsUnreadIds | Frontend/src/components/ui/DashboardNavbar.jsx:98 | with distinct ids the count is the number of unread notification ids |
| DashboardNavbar.MockUnreadCount | Frontend/src/components/ui/DashboardNavbar.jsx:20-24 | the sample notifications have two unread |
| DashboardNavbar.Navbar.constructor | Frontend/src/components/ui/DashboardNavbar.jsx:12-24 | every menu starts closed |
| DashboardNavbar.Navbar.HandleToggleMenu | Frontend/src/components/ui/DashboardNavbar.jsx:70-75 | the mobile menu flips, the two dropdowns close, and they are never both open |
| DashboardNavbar.Navbar.HandleToggleProfileDropdown | Frontend/src/components/ui/DashboardNavbar.jsx:77-81 | the profile dropdown flips and notifications close, so they are never both open |
| DashboardNavbar.Navbar.HandleToggleNotifications | Frontend/src/components/ui/DashboardNavbar.jsx:83-87 | notifications flip and the profile dropdown closes, so they are never both open |
| DashboardNavbar.Navbar.CloseMobileMenu | Frontend/src/components/ui/DashboardNavbar.jsx:376-379 | only the mobile menu closes |
| SignupPage.DisplayedError | Frontend/src/pages/SignupPage.jsx:44 | `message.replace('Firebase: ', '')`; stated by `DisplayedErrorCutsPrefix` |
| SignupPage.SubmitDisabled | Frontend/src/pages/SignupPage.jsx:216 | the sign-up button's `disabled`: an empty input or a pending call |
| SignupPage.DisplayedErrorCutsPrefix | Frontend/src/pages/SignupPage.jsx:44 | the shown error is the message with its first "Firebase: " removed: put back at that place it gives the message, and a message without it is shown as is |
| SignupPage.Page.constructor | Frontend/src/pages/SignupPage.jsx:14-19 | all fields start empty and not loading |
| SignupPage.Page.SetFields | Frontend/src/pages/SignupPage.jsx:14-16 | only the three inputs change |
| SignupPage.Page.ValidatePasswords | Frontend/src/pages/SignupPage.jsx:22-29 | the result is true exactly when the passwords are equal, and the password error is "Passwords do not match" exactly when they differ |
| SignupPage.Page.HandleSubmit | Frontend/src/pages/SignupPage.jsx:31-48 | mismatched passwords stop before loading, the error or the sign-up call; otherwise the page moves on after success or shows the cleaned error, and loading ends |
| SignupPage.Page.HandleGoogleSignup | Frontend/src/pages/SignupPage.jsx:50-64 | the page moves on exactly after success, a failure shows the cleaned error, and loading ends |
| ProjectCard.ProjectId | Frontend/src/components/dashboard/ProjectCard.jsx:41 | the link id is `id` when truthy and `_id` otherwise |
| ProjectCard.Progress | Frontend/src/components/dashboard/ProjectCard.jsx:35 | progress defaults to 0 only when it is undefined |
| ProjectCard.MembersList | Frontend/src/components/dashboard/ProjectCard.jsx:36-44 | the members when they are an array, and empty otherwise |
| ProjectCard.AvatarStrip | Frontend/src/components/dashboard/ProjectCard.jsx:85-106 | the placeholder shows exactly when there are no members; at most three avatars, a prefix of the members; the badge exactly when there are more than three |
| ProjectCard.StripAccountsForAll | Frontend/src/components/dashboard/ProjectCard.jsx:87-99 | every member is drawn or counted in the badge, and the drawn ones are the first three |
| ProjectCard.AvatarSource | Frontend/src/components/dashboard/ProjectCard.jsx:87-90 | a null or undefined member throws (`None`); any other member gets a truthy image: its own avatar, else its photo, else the generated address holding its encoded name or "User" |
| ProjectCard.NamelessMemberAvatar | Frontend/src/components/dashboard/ProjectCard.jsx:90 | a member without avatar, photo or name is drawn with the generated address for "User" |
| ProjectCard.FormatDate | Frontend/src/components/dashboard/ProjectCard.jsx:46-50 | an empty or missing date is "Not set", any other shows its locale text |
| AuthContext.Initials | Frontend/src/contexts/AuthContext.jsx:30 | the sign-up avatar `name.split(' ').map(n => n[0]).join('')`; its shape is stated by `InitialsAreWordStarts` and `InitialsShape` |
| AuthContext.FirstChars | Frontend/src/contexts/AuthContext.jsx:30 | joining the words' first characters gives at most one character per word |
| AuthContext.FirstCharsOfSplit | Frontend/src/contexts/AuthContext.jsx:30 | the first characters of the space-separated words are exactly the characters that follow a space or start the name |
| AuthContext.InitialsAreWordStarts | Frontend/src/contexts/AuthContext.jsx:30 | the avatar initials are the word starts of the name |
| AuthContext.FirstCharsCount | Frontend/src/contexts/AuthContext.jsx:30 | empty words contribute nothing, so there is one initial per non-empty word |
| AuthContext.WordStartsHasNoSpace | Frontend/src/contexts/AuthContext.jsx:30 | no word start is a space |
| AuthContext.InitialsShape | Frontend/src/contexts/AuthContext.jsx:30 | the avatar has one character per non-empty word and no spaces |
| AuthContext.AuthProvider.constructor | Frontend/src/contexts/AuthContext.jsx:8-9 | no user is signed in, and the auth check is loading |
| AuthContext.AuthProvider.SignIn | Frontend/src/contexts/AuthContext.jsx:12-21 | the fixed test user with the given email is signed in, and the call returns true |
| AuthContext.AuthProvider.SignUp | Frontend/src/contexts/AuthContext.jsx:24-33 | the given name and email are stored unchanged with the name's initials as avatar, and the call returns true |
| AuthContext.AuthProvider.SignOut | Frontend/src/contexts/AuthContext.jsx:36-40 | the user is cleared and the call returns true |
| AuthContext.AuthProvider.FinishAuthCheck | Frontend/src/contexts/AuthContext.jsx:43-54 | loading ends and the user is unchanged |
| Consistency.OfferedLabelsAccepted | Frontend/src/components/project/AddTaskModal.jsx:30-32 | every label the add-task form offers is in the schema's label enumeration |
| Consistency.MappedStatusAccepted | Frontend/src/services/taskService.js:10-12 | the status sent is accepted by the schema exactly when the column key is mapped or already a schema status |
| JsStrings.BlankIffTrimEmpty | Frontend/src/pages/DashboardPage.jsx:24 | `s.trim()` is empty exactly when every character of `s` is whitespace, so the blank test agrees with `!s.trim()` |
| JsStrings.TrimOccurs | Frontend/src/pages/DashboardPage.jsx:24 | the trimmed string occurs in the original after its leading whitespace |
| JsStrings.TrimStartSpec | Frontend/src/pages/DashboardPage.jsx:24 | `trimStart` removes only whitespace and keeps a string that does not start with whitespace |
| JsStrings.TrimEndSpec | Frontend/src/pages/DashboardPage.jsx:24 | `trimEnd` removes only whitespace and keeps a string that does not end with whitespace |
| JsStrings.Trim | Frontend/src/pages/DashboardPage.jsx:24 | `trimEnd` of `trimStart`; stated by `TrimStartSpec`, `TrimEndSpec`, `TrimIdempotent` and `BlankIffTrimEmpty` |
| JsStrings.Lower | Frontend/src/pages/DashboardPage.jsx:35-36 | same length, each ASCII capital lowered and every other character kept |
| JsStrings.Includes | Frontend/src/pages/DashboardPage.jsx:35-36 | `s.includes(sub)`: `sub` occurs somewhere in `s` (see `IncludesIffOccurs`) |
| JsStrings.IndexOf | Frontend/src/pages/SignupPage.jsx:44 | the first position where the pattern occurs, and none exactly when it occurs nowhere |
| JsStrings.ReplaceFirst | Frontend/src/pages/SignupPage.jsx:44 | `replace` of a string pattern: the first occurrence is replaced (see `ReplaceFirstSplices`) |
| JsStrings.TrimIdempotent | Backend/models/taskModel.js:7 | trimming a trimmed string changes nothing |
| JsStrings.ReplaceFirstSplices | Frontend/src/pages/SignupPage.jsx:44 | replacing the first occurrence splices the replacement in at that index and keeps the rest |
| JsStrings.Split | Frontend/src/contexts/AuthContext.jsx:30 | at least one piece, and no piece contains the separator |
| JsStrings.Join | Frontend/src/contexts/AuthContext.jsx:30 | the pieces with the separator between them; `JoinSplit` states it undoes `Split` |
| JsStrings.JoinSplit | Frontend/src/contexts/AuthContext.jsx:30 | splitting on a character and joining with it gives back the string |
| JsStrings.EncodeUriComponent | Frontend/src/components/project/InviteMemberModal.jsx:74 | the encoding is never shorter and uses only unreserved characters and '%'; each character is encoded by `EncodeChar` |
| JsStrings.EncodeChar | Frontend/src/components/project/InviteMemberModal.jsx:74 | an unreserved character is kept; any other becomes three characters per UTF-8 byte |
| JsStrings.PercentAllAt | Frontend/src/components/project/InviteMemberModal.jsx:74 | the k-th byte is written as its `%XX` text at positions 3k to 3k+2 |
| JsStrings.EncodeCharBytes | Frontend/src/components/project/InviteMemberModal.jsx:74 | a reserved character becomes, byte by byte, the `%XX` text of its UTF-8 encoding |
| JsStrings.EncodeConcat | Frontend/src/components/project/InviteMemberModal.jsx:74 | encoding a concatenation concatenates the encodings |
| JsStrings.EncodeEmailCharacters | Frontend/src/components/project/InviteMemberModal.jsx:74 | '@' becomes "%40", '+' "%2B" and a space "%20" |
| JsStrings.EncodeUnreservedIsIdentity | Frontend/src/components/project/InviteMemberModal.jsx:74 | text made of unreserved characters is encoded as itself |
| Seqs.Filter | Frontend/src/pages/AutomationPage.jsx:32 | the result is never longer than the input |
| Seqs.FilterSpec | Frontend/src/pages/AutomationPage.jsx:32 | every kept item passes the test and comes from the input, every item that passes is kept as often as it occurs and no other item is, and the order is preserved |
| Seqs.FilterMembers | Frontend/src/pages/AutomationPage.jsx:32 | kept items pass and come from the input in order, and every passing item is kept |
| Seqs.FilterMultiset | Frontend/src/pages/AutomationPage.jsx:32 | each value that passes is kept exactly as often as it occurs, and a value that fails not at all |
| Seqs.FindIndex | Frontend/src/api/projects.js:129 | the index of the first item satisfying the test, and none exactly when none does |
| Seqs.Find | Frontend/src/components/project/KanbanBoard.jsx:59 | `Array.prototype.find`: some item exactly when an item passes the test, and then the item at the first passing index |

## Left out

- Rendering, markup, animation, styling and routing are not modelled.
- HTTP, database and identity-provider calls are outcome parameters. Their wire formats, the auth middleware and the backend routes are not part of this model.
- Timers, `Math.random` and the clock are parameters, and each timer callback runs at once. Interleavings of a handler with another handler while a timer is pending are not modelled.
- Date parsing and locale formatting are not modelled. Due-date text, ISO timestamps and `toLocaleDateString` output are opaque parameters.
- `toLowerCase` lowers ASCII letters only, and a string is a sequence of Dafny characters rather than UTF-16 code units. `n[0]` of a word starting with an astral character therefore differs from JavaScript.
- `setState` batching and React's re-rendering are not modelled. Each handler's state changes happen as one step.
- Object identity is structural equality. Two equal JavaScript objects that are different references count as the same here.
- Numbers are integers, and floating point is not modelled.
- A property lookup on a JavaScript object's prototype (a key such as "toString" in `statusMapping`) is not modelled; only own keys are read.
- `handleTaskClick`, `handleTaskClose` and `selectedTask` in the kanban board, the navbar's scroll flag, profile fetch and logout, and the delayed success path of `handleInvite` are not modelled.
- `handleLogout`, the login page and every other page not listed above are not part of this model.
- KanbanBoard.Drop: requires the source column to exist when it differs from the target; the source would throw there, and only existing columns can be dragged from.
- KanbanBoard.Board.HandleTaskCreated: requires the remembered column to exist, since spreading a missing column throws; the modal is only opened from an existing column.
- RuleCreationForm.Form.HandleActionTypeChange: requires a listed action type, since `values[0].id` throws for any other; the select offers only listed types.
- RuleCreationForm.ActionDefault: requires a listed action type, for the same reason.
- DashboardPage.SearchResults: requires every project to have a string title and description, since `toLowerCase` throws otherwise; the sample projects meet it (`MockProjectsSearchable`).
- ProjectSettingsModal.FormFromProject: a truthy title or description that is not a string becomes "" (`TextOr`); the source would keep the value and then fail at `trim`.
- ProjectSettingsModal.Modal.HandleSubmit: `formData.title.trim()` on a non-string title is not modelled, since the form holds strings only.
- AddTaskModal.NewTask: does not state the task's key set, only its id, assignee, creation time and (by `NewTaskCarriesForm`) its form fields.
- ProjectsApi.Store.constructor: the seed projects of `projects.js` are a parameter, not written out.
- SignupPage.SubmitDisabled and AddTaskModal.CanSubmit are stated as predicates with no separate lemma; they are the source's expressions.
- TaskModel.Validate: a project id is accepted when it is the 24-hex-digit text of an ObjectId. The 12-byte strings and ObjectId values that Mongoose also casts are rejected here, and the stored id is kept as text rather than as an ObjectId.
- JsStrings.EncodeUriComponent: a lone surrogate, which makes `encodeURIComponent` throw, cannot occur, since a Dafny character is a Unicode scalar value.
