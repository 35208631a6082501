/**
 * Backend/models/taskModel.js: the task schema. What the schema casts
 * (trimming, defaults) is `Cast`; what it rejects is `Violations`; a document
 * that passes is `ValidTask`. The pre-save hook is a method on a document.
 */
module TaskModel {
  import opened Wrappers
  import JsStrings

  const Statuses: seq<string> := ["To Do", "In Progress", "Done"]
  const DefaultStatus: string := "To Do"
  const Priorities: seq<string> := ["low", "medium", "high"]
  const DefaultPriority: string := "medium"
  const LabelVocabulary: seq<string> :=
    ["design", "development", "marketing", "research", "testing", "planning", "ui/ux", "backend", "frontend"]

  /** One of the nine label words the schema accepts. */
  predicate KnownLabel(s: string) {
    s in LabelVocabulary
  }

  datatype Assignee = Assignee(userId: Option<string>, email: Option<string>, name: Option<string>, avatar: Option<string>)

  /**
   * A task document after casting. Dates are opaque timestamps; `None` in a
   * defaulted field is a `null` the document keeps.
   */
  datatype Task = Task(
    title: string,
    description: Option<string>,
    projectId: string,
    status: Option<string>,
    priority: Option<string>,
    assignee: Option<Assignee>,
    labels: seq<string>,
    dueDate: Option<int>,
    createdBy: string,
    createdAt: Option<int>,
    updatedAt: Option<int>)

  /**
   * A schema field with a default: an absent key (`undefined`), an explicit
   * `null`, or a value. Mongoose applies a `default` only to an absent key.
   */
  datatype Field<T> = Missing | Null | Given(value: T)

  /**
   * The fields given to `new Task({...})`. For a field without a default `None`
   * is a missing or null value, which the schema treats alike; the defaulted
   * fields tell the two apart.
   */
  datatype TaskInput = TaskInput(
    title: Option<string>,
    description: Option<string>,
    projectId: Option<string>,
    status: Field<string>,
    priority: Field<string>,
    assignee: Option<Assignee>,
    labels: seq<string>,
    dueDate: Option<int>,
    createdBy: Option<string>,
    createdAt: Field<int>,
    updatedAt: Field<int>)

  /** The path a validation error is reported on. */
  datatype Path = Title | ProjectId | Status | Priority | Label(index: nat) | CreatedBy

  predicate IsHexDigit(c: char) {
    '0' <= c <= '9' || 'a' <= c <= 'f' || 'A' <= c <= 'F'
  }

  /** The text of an ObjectId: 24 hexadecimal digits. */
  predicate IsObjectIdText(s: string) {
    |s| == 24 && forall i :: 0 <= i < |s| ==> IsHexDigit(s[i])
  }

  /**
   * A document the schema accepts: the required fields present (a `null`
   * status included), the project id an ObjectId, every enumeration respected
   * (the enumeration validators let a `null` priority through).
   */
  predicate ValidTask(t: Task) {
    && t.title != "" && JsStrings.Trim(t.title) == t.title
    && (t.description.Some? ==> JsStrings.Trim(t.description.value) == t.description.value)
    && IsObjectIdText(t.projectId)
    && t.status.Some? && t.status.value in Statuses
    && (t.priority.Some? ==> t.priority.value in Priorities)
    && (forall i :: 0 <= i < |t.labels| ==> KnownLabel(t.labels[i]) && JsStrings.Trim(t.labels[i]) == t.labels[i])
    && t.createdBy != ""
  }

  function TrimAll(ss: seq<string>): (r: seq<string>)
    ensures |r| == |ss|
    ensures forall i :: 0 <= i < |ss| ==> r[i] == JsStrings.Trim(ss[i])
  {
    seq(|ss|, i requires 0 <= i < |ss| => JsStrings.Trim(ss[i]))
  }

  function ValueOr<T>(o: Option<T>, default: T): T {
    if o.Some? then o.value else default
  }

  /** A `default` applies to a missing field only; a `null` stays `null`. */
  function Defaulted<T>(f: Field<T>, default: T): Option<T> {
    match f
    case Missing => Some(default)
    case Null => None
    case Given(v) => Some(v)
  }

  /**
   * What the schema makes of the input before validating: strings trimmed,
   * `status`, `priority`, `createdAt` and `updatedAt` defaulted when missing
   * and kept `null` when null. A missing required string becomes "", which
   * `required` rejects.
   */
  function Cast(input: TaskInput, now: int): Task {
    Task(
      JsStrings.Trim(ValueOr(input.title, "")),
      if input.description.Some? then Some(JsStrings.Trim(input.description.value)) else None,
      ValueOr(input.projectId, ""),
      Defaulted(input.status, DefaultStatus),
      Defaulted(input.priority, DefaultPriority),
      input.assignee,
      TrimAll(input.labels),
      input.dueDate,
      ValueOr(input.createdBy, ""),
      Defaulted(input.createdAt, now),
      Defaulted(input.updatedAt, now))
  }

  /** The labels outside the vocabulary, reported at their positions (counted from `from`). */
  function LabelViolations(labels: seq<string>, from: nat): (r: seq<Path>)
    ensures r == [] <==> forall i :: 0 <= i < |labels| ==> KnownLabel(labels[i])
    ensures forall p :: p in r ==> p.Label?
    ensures forall k: nat :: Label(k) in r <==> from <= k < from + |labels| && !KnownLabel(labels[k - from])
  {
    if labels == [] then []
    else
      var rest := LabelViolations(labels[1..], from + 1);
      assert forall i :: 1 <= i < |labels| ==> labels[i] == labels[1..][i - 1];
      if KnownLabel(labels[0]) then rest else [Label(from)] + rest
  }

  /** The validation errors of a cast document, in schema order. */
  function Violations(t: Task): seq<Path> {
    (if t.title == "" then [Title] else [])
    + (if !IsObjectIdText(t.projectId) then [ProjectId] else [])
    + (if t.status.None? || t.status.value !in Statuses then [Status] else [])
    + (if t.priority.Some? && t.priority.value !in Priorities then [Priority] else [])
    + LabelViolations(t.labels, 0)
    + (if t.createdBy == "" then [CreatedBy] else [])
  }

  /** A missing or null status is reported on the path `status`. */
  lemma NullStatusReported(t: Task)
    requires t.status.None?
    ensures Status in Violations(t)
  {
    var head := (if t.title == "" then [Title] else []) + (if !IsObjectIdText(t.projectId) then [ProjectId] else []);
    assert Status in head + [Status];
  }

  /** The enumeration check lets a null priority through. */
  lemma NullPriorityAccepted(t: Task)
    requires t.priority.None?
    ensures Priority !in Violations(t)
  {
    var a := (if t.title == "" then [Title] else []) + (if !IsObjectIdText(t.projectId) then [ProjectId] else [])
      + (if t.status.None? || t.status.value !in Statuses then [Status] else []);
    var labels := LabelViolations(t.labels, 0);
    var c := if t.createdBy == "" then [CreatedBy] else [];
    assert Violations(t) == a + labels + c;
    assert Priority !in a && Priority !in labels && Priority !in c;
  }

  /** `new Task(input).validate()`: the cast document, or the paths that failed. */
  function Validate(input: TaskInput, now: int): (r: Result<Task, seq<Path>>)
    ensures r.Ok? <==> ValidTask(Cast(input, now))
    ensures r.Ok? ==> r.value == Cast(input, now)
    ensures r.Err? ==> r.error != []
  {
    var t := Cast(input, now);
    CastIsTrimmed(input, now);
    if Violations(t) == [] then Ok(t) else Err(Violations(t))
  }

  /** Every string the cast produces is already trimmed. */
  lemma CastIsTrimmed(input: TaskInput, now: int)
    ensures var t := Cast(input, now);
      && JsStrings.Trim(t.title) == t.title
      && (t.description.Some? ==> JsStrings.Trim(t.description.value) == t.description.value)
      && forall i :: 0 <= i < |t.labels| ==> JsStrings.Trim(t.labels[i]) == t.labels[i]
  {
    var t := Cast(input, now);
    JsStrings.TrimIdempotent(ValueOr(input.title, ""));
    if input.description.Some? {
      JsStrings.TrimIdempotent(input.description.value);
    }
    forall i | 0 <= i < |t.labels| ensures JsStrings.Trim(t.labels[i]) == t.labels[i] {
      JsStrings.TrimIdempotent(input.labels[i]);
    }
  }

  /** A missing, empty or whitespace-only title is rejected on the path `title`. */
  lemma TitleRequired(input: TaskInput, now: int)
    requires input.title.None? || JsStrings.IsBlank(input.title.value)
    ensures Validate(input, now).Err? && Title in Validate(input, now).error
  {
    var t := Cast(input, now);
    JsStrings.BlankIffTrimEmpty(ValueOr(input.title, ""));
    assert t.title == "";
    assert Title in Violations(t);
  }

  /**
   * A missing project or creator is rejected on its path, and so is a project
   * id that does not cast to an ObjectId.
   */
  lemma ProjectAndCreatorRequired(input: TaskInput, now: int)
    requires input.projectId.None? || !IsObjectIdText(input.projectId.value) || input.createdBy.None?
    ensures Validate(input, now).Err?
    ensures input.projectId.None? || !IsObjectIdText(input.projectId.value) ==> ProjectId in Validate(input, now).error
    ensures input.createdBy.None? ==> CreatedBy in Validate(input, now).error
  {
    assert !IsObjectIdText("");
  }

  /**
   * A missing status, priority or timestamp takes its default, and both
   * defaults are accepted values; a `null` one is not defaulted: a null status
   * fails `required`, a null priority or timestamp stays null.
   */
  lemma Defaults(input: TaskInput, now: int)
    ensures input.status.Missing? ==> Cast(input, now).status == Some("To Do") && "To Do" in Statuses
    ensures input.status.Null? ==> Validate(input, now).Err? && Status in Validate(input, now).error
    ensures input.priority.Missing? ==> Cast(input, now).priority == Some("medium") && "medium" in Priorities
    ensures input.priority.Null? ==> Cast(input, now).priority.None? && Priority !in Violations(Cast(input, now))
    ensures input.createdAt.Missing? ==> Cast(input, now).createdAt == Some(now)
    ensures input.createdAt.Null? ==> Cast(input, now).createdAt.None?
    ensures input.updatedAt.Missing? ==> Cast(input, now).updatedAt == Some(now)
    ensures input.updatedAt.Null? ==> Cast(input, now).updatedAt.None?
  {
    var t := Cast(input, now);
    if input.status.Null? {
      NullStatusReported(t);
    }
    if input.priority.Null? {
      NullPriorityAccepted(t);
    }
  }

  /** A label outside the vocabulary is rejected at its own index. */
  lemma UnknownLabelRejected(input: TaskInput, now: int, i: nat)
    requires i < |input.labels| && !KnownLabel(JsStrings.Trim(input.labels[i]))
    ensures Validate(input, now).Err? && Label(i) in Validate(input, now).error
  {
    var t := Cast(input, now);
    assert !KnownLabel(t.labels[i]);
    assert Label(i) in LabelViolations(t.labels, 0);
    assert Label(i) in Violations(t);
  }

  /** A stored value given back: a `null` is sent as `null`. */
  function FieldOf<T>(o: Option<T>): Field<T> {
    if o.Some? then Given(o.value) else Null
  }

  /** A stored value sent back is stored unchanged: defaults do not touch it. */
  lemma FieldOfDefaulted<T>(o: Option<T>, default: T)
    ensures Defaulted(FieldOf(o), default) == o
  {
  }

  /** The fields of an accepted document, given back as input. */
  function AsInput(t: Task): TaskInput {
    TaskInput(Some(t.title), t.description, Some(t.projectId), FieldOf(t.status), FieldOf(t.priority), t.assignee,
      t.labels, t.dueDate, Some(t.createdBy), FieldOf(t.createdAt), FieldOf(t.updatedAt))
  }

  /** An accepted document validates again unchanged: casting is idempotent on valid tasks. */
  lemma ValidRoundTrip(t: Task, now: int)
    requires ValidTask(t)
    ensures Validate(AsInput(t), now) == Ok(t)
  {
    var c := Cast(AsInput(t), now);
    FieldOfDefaulted(t.status, DefaultStatus);
    FieldOfDefaulted(t.priority, DefaultPriority);
    FieldOfDefaulted(t.createdAt, now);
    FieldOfDefaulted(t.updatedAt, now);
    assert c.labels == t.labels;
    assert c == t;
  }

  /** A stored task document. */
  class TaskDocument {
    var data: Task

    constructor(t: Task)
      ensures data == t
    {
      data := t;
    }

    /** The pre-save hook: `updatedAt` becomes the current time and nothing else changes. */
    method PreSave(now: int)
      modifies this
      ensures data == old(data).(updatedAt := Some(now))
      ensures ValidTask(old(data)) ==> ValidTask(data)
    {
      data := data.(updatedAt := Some(now));
    }
  }
}
