/**
 * Frontend/src/services/taskService.js: translation between the kanban column
 * keys of the frontend and the task statuses of the backend, and the shaping
 * of the payloads that the task endpoints receive. The HTTP calls themselves
 * are outside the model; their outcome is a parameter.
 */
module TaskService {
  import opened Wrappers
  import opened JsValues
  import JsStrings
  import Seqs

  /** `statusMapping`, in declaration order: (frontend key, backend status). */
  const StatusEntries: seq<(string, string)> :=
    [("todo", "To Do"), ("in-progress", "In Progress"), ("done", "Done")]

  const FrontendKeys: set<string> := {"todo", "in-progress", "done"}
  const BackendStatuses: set<string> := {"To Do", "In Progress", "Done"}

  /** `statusMapping[key]`: the value of the entry with that key. */
  function LookupKey(entries: seq<(string, string)>, key: string): (r: Option<string>)
    ensures r.Some? ==> (key, r.value) in entries
    ensures r.None? <==> forall i :: 0 <= i < |entries| ==> entries[i].0 != key
  {
    match Seqs.FindIndex(entries, (e: (string, string)) => e.0 == key)
    case Some(i) => Some(entries[i].1)
    case None => None
  }

  /** The `for…of` loop over `Object.entries(statusMapping)`: it returns the key of the first entry holding that value. */
  function ReverseLookup(entries: seq<(string, string)>, value: string): (r: Option<string>)
    ensures r.Some? ==> (r.value, value) in entries
    ensures r.None? <==> forall i :: 0 <= i < |entries| ==> entries[i].1 != value
  {
    match Seqs.FindIndex(entries, (e: (string, string)) => e.1 == value)
    case Some(i) => Some(entries[i].0)
    case None => None
  }

  /** `getBackendStatus`: the mapped status, or the input itself when the mapping has no (truthy) value for it. */
  function GetBackendStatus(frontendStatus: string): string {
    match LookupKey(StatusEntries, frontendStatus)
    case Some(v) => if v != "" then v else frontendStatus
    case None => frontendStatus
  }

  /** The three column keys map to the three backend statuses; every other string passes through. */
  lemma BackendStatusTable(k: string)
    ensures GetBackendStatus("todo") == "To Do"
    ensures GetBackendStatus("in-progress") == "In Progress"
    ensures GetBackendStatus("done") == "Done"
    ensures k !in FrontendKeys ==> GetBackendStatus(k) == k
  {
    var e := StatusEntries;
    assert e[0] == ("todo", "To Do") && e[1] == ("in-progress", "In Progress") && e[2] == ("done", "Done");
    LookupFirstMatch(e, "todo", 0);
    LookupFirstMatch(e, "in-progress", 1);
    LookupFirstMatch(e, "done", 2);
    if k !in FrontendKeys {
      assert forall i :: 0 <= i < |e| ==> e[i].0 != k;
    }
  }

  /** The lookup finds the first entry with the key. */
  lemma LookupFirstMatch(entries: seq<(string, string)>, key: string, i: nat)
    requires i < |entries| && entries[i].0 == key
    requires forall j :: 0 <= j < i ==> entries[j].0 != key
    ensures LookupKey(entries, key) == Some(entries[i].1)
  {
    var r := Seqs.FindIndex(entries, (e: (string, string)) => e.0 == key);
    assert r.Some? && r.value == i;
  }

  /** `backendStatus.replace(/\s+/g, '-')`: every run of whitespace becomes one '-'. */
  function DashRuns(s: string): string
    decreases |s|
  {
    if s == [] then []
    else if JsStrings.IsSpace(s[0]) then "-" + DashRuns(SkipSpace(s))
    else [s[0]] + DashRuns(s[1..])
  }

  /** Each whitespace run shrinks to one character, so the result is never longer. */
  lemma {:induction false} DashRunsShortens(s: string)
    ensures |DashRuns(s)| <= |s|
    ensures DashRuns(s) == [] <==> s == []
    decreases |s|
  {
    if s != [] {
      if JsStrings.IsSpace(s[0]) {
        DashRunsShortens(SkipSpace(s));
      } else {
        DashRunsShortens(s[1..]);
      }
    }
  }

  /** After the replacement no whitespace is left, and a string without whitespace is unchanged. */
  lemma {:induction false} DashRunsRemovesSpace(s: string)
    ensures JsStrings.NoSpace(DashRuns(s))
    ensures JsStrings.NoSpace(s) ==> DashRuns(s) == s
    decreases |s|
  {
    if s != [] {
      if JsStrings.IsSpace(s[0]) {
        DashRunsRemovesSpace(SkipSpace(s));
        DashRunsSpaceStep(s);
      } else {
        DashRunsRemovesSpace(s[1..]);
        DashRunsCharStep(s);
      }
    }
  }

  /** A leading whitespace run becomes a '-', which is not whitespace. */
  lemma DashRunsSpaceStep(s: string)
    requires s != [] && JsStrings.IsSpace(s[0])
    requires JsStrings.NoSpace(DashRuns(SkipSpace(s)))
    ensures JsStrings.NoSpace(DashRuns(s)) && !JsStrings.NoSpace(s)
  {
    var r := DashRuns(SkipSpace(s));
    assert DashRuns(s) == ['-'] + r;
    assert !JsStrings.IsSpace('-');
    JsStrings.NoSpaceCons('-', r);
    assert !JsStrings.NoSpace(s) by {
      assert JsStrings.IsSpace(s[0]);
    }
  }

  /** A leading character that is not whitespace is kept as it is. */
  lemma DashRunsCharStep(s: string)
    requires s != [] && !JsStrings.IsSpace(s[0])
    requires JsStrings.NoSpace(DashRuns(s[1..]))
    requires JsStrings.NoSpace(s[1..]) ==> DashRuns(s[1..]) == s[1..]
    ensures JsStrings.NoSpace(DashRuns(s))
    ensures JsStrings.NoSpace(s) ==> DashRuns(s) == s
  {
    JsStrings.NoSpaceCons(s[0], DashRuns(s[1..]));
    JsStrings.NoSpaceCons(s[0], s[1..]);
    assert [s[0]] + s[1..] == s;
  }

  /** `s` without its leading run of whitespace. */
  function SkipSpace(s: string): (r: string)
    ensures |r| <= |s| && r == s[|s| - |r|..]
    ensures s != [] && JsStrings.IsSpace(s[0]) ==> |r| < |s|
    ensures r == [] || !JsStrings.IsSpace(r[0])
  {
    if s != [] && JsStrings.IsSpace(s[0]) then SkipSpace(s[1..]) else s
  }

  /** The fallback of `getFrontendStatus`: lower-cased, whitespace runs replaced by '-'. */
  function Slug(status: string): string {
    DashRuns(JsStrings.Lower(status))
  }

  /** A slug never contains whitespace. */
  lemma SlugHasNoSpace(status: string)
    ensures JsStrings.NoSpace(Slug(status))
  {
    DashRunsRemovesSpace(JsStrings.Lower(status));
  }

  /** `getFrontendStatus`: the reverse mapping when one exists, the slug otherwise. */
  function GetFrontendStatus(backendStatus: string): (r: string)
    ensures r in FrontendKeys || r == Slug(backendStatus)
  {
    match ReverseLookup(StatusEntries, backendStatus)
    case Some(k) => k
    case None => Slug(backendStatus)
  }

  /** Mapping a column key to the backend and back returns the key. */
  lemma {:induction false} FrontendRoundTrip(k: string)
    requires k in FrontendKeys
    ensures GetBackendStatus(k) in BackendStatuses
    ensures GetFrontendStatus(GetBackendStatus(k)) == k
  {
    assert StatusEntries[0] == ("todo", "To Do");
  }

  /** Mapping a backend status to its column key and back returns the status. */
  lemma {:induction false} BackendRoundTrip(v: string)
    requires v in BackendStatuses
    ensures GetFrontendStatus(v) in FrontendKeys
    ensures GetBackendStatus(GetFrontendStatus(v)) == v
  {
    assert StatusEntries[0] == ("todo", "To Do");
  }

  /** No backend status is itself a mapping key, so mapping twice is mapping once. */
  lemma BackendStatusIdempotent(k: string)
    ensures GetBackendStatus(GetBackendStatus(k)) == GetBackendStatus(k)
  {
  }

  /** The replacement turns the five characters "to do" into "to-do". */
  lemma DashRunsOfToDo(t: string)
    requires |t| == 5 && t[0] == 't' && t[1] == 'o' && t[2] == ' ' && t[3] == 'd' && t[4] == 'o'
    ensures DashRuns(t) == "to-do"
  {
    var v := t[1..];
    assert t == ['t'] + v;
    DashRunsOfODo(v);
    assert !JsStrings.IsSpace('t');
    DashRunsKeeps('t', v);
  }

  /** "o do" becomes "o-do". */
  lemma DashRunsOfODo(v: string)
    requires |v| == 4 && v[0] == 'o' && v[1] == ' ' && v[2] == 'd' && v[3] == 'o'
    ensures DashRuns(v) == "o-do"
  {
    var u := v[1..];
    assert v == ['o'] + u;
    DashRunsOfSpaceDo(u);
    assert !JsStrings.IsSpace('o');
    DashRunsKeeps('o', u);
  }

  /** " do" becomes "-do". */
  lemma DashRunsOfSpaceDo(u: string)
    requires |u| == 3 && u[0] == ' ' && u[1] == 'd' && u[2] == 'o'
    ensures DashRuns(u) == "-do"
  {
    var d := u[1..];
    assert u == [' '] + d;
    assert JsStrings.NoSpace(d) by {
      assert !JsStrings.IsSpace('d') && !JsStrings.IsSpace('o');
    }
    DashRunsRemovesSpace(d);
    assert JsStrings.IsSpace(' ');
    DashRunsSingleSpace(' ', d);
  }

  /** A character that is not whitespace passes through the replacement. */
  lemma DashRunsKeeps(c: char, s: string)
    requires !JsStrings.IsSpace(c)
    ensures DashRuns([c] + s) == [c] + DashRuns(s)
  {
    assert ([c] + s)[1..] == s;
  }

  /** A single whitespace character before a non-whitespace one becomes '-'. */
  lemma DashRunsSingleSpace(c: char, s: string)
    requires JsStrings.IsSpace(c) && (s == [] || !JsStrings.IsSpace(s[0]))
    ensures DashRuns([c] + s) == "-" + DashRuns(s)
  {
    var cs := [c] + s;
    assert cs[0] == c && cs[1..] == s;
    assert SkipSpace(cs) == s;
    assert DashRuns(cs) == "-" + DashRuns(SkipSpace(cs));
  }

  /** "To Do" lower-cases to "to do", whose slug is "to-do". */
  lemma SlugOfToDo()
    ensures Slug("To Do") == "to-do"
  {
    var t := JsStrings.Lower("To Do");
    assert t[0] == 't' && t[1] == 'o' && t[2] == ' ' && t[3] == 'd' && t[4] == 'o';
    DashRunsOfToDo(t);
  }

  /** The reverse lookup wins over the slug: "To Do" is the column "todo", not "to-do". */
  lemma ReverseLookupBeforeSlug()
    ensures GetFrontendStatus("To Do") == "todo"
    ensures Slug("To Do") == "to-do"
  {
    assert StatusEntries[0] == ("todo", "To Do");
    SlugOfToDo();
  }

  /** A status with no reverse mapping comes back as its slug. */
  lemma UnmappedStatusIsSlug(v: string)
    requires v !in BackendStatuses
    ensures GetFrontendStatus(v) == Slug(v)
    ensures JsStrings.NoSpace(GetFrontendStatus(v))
  {
    SlugHasNoSpace(v);
  }

  /** The status a payload carries after `getBackendStatus`; a value that is not a string has no mapping entry. */
  function MapStatusValue(v: Json): (r: Json)
    ensures !v.Str? || v.s !in FrontendKeys ==> r == v
    ensures v.Str? && v.s in FrontendKeys ==> r.Str? && r.s in BackendStatuses
  {
    if !v.Str? then v
    else if v.s in FrontendKeys then Str(GetBackendStatus(v.s))
    else
      BackendStatusTable(v.s);
      Str(GetBackendStatus(v.s))
  }

  /**
   * `createTask`'s `{...taskData, status: taskData.status ? getBackendStatus(taskData.status) : undefined}`.
   */
  function CreateTaskPayload(taskData: Object): (r: Object)
    ensures r.Keys == taskData.Keys + {"status"}
    ensures forall key :: key in taskData && key != "status" ==> r[key] == taskData[key]
    ensures !Truthy(Get(taskData, "status")) ==> r["status"] == Undefined
    ensures Truthy(Get(taskData, "status")) && taskData["status"].Str? ==>
      r["status"] == Str(GetBackendStatus(taskData["status"].s))
  {
    var st := Get(taskData, "status");
    taskData["status" := if Truthy(st) then MapStatusValue(st) else Undefined]
  }

  /** `updateTask`'s copy of the payload, with `status` rewritten only when it is truthy. */
  function UpdateTaskPayload(taskData: Object): (r: Object)
    ensures r.Keys == taskData.Keys
    ensures forall key :: key in taskData && key != "status" ==> r[key] == taskData[key]
    ensures !Truthy(Get(taskData, "status")) ==> r == taskData
    ensures Truthy(Get(taskData, "status")) && taskData["status"].Str? ==>
      r["status"] == Str(GetBackendStatus(taskData["status"].s))
  {
    if Truthy(Get(taskData, "status")) then taskData["status" := MapStatusValue(taskData["status"])]
    else taskData
  }

  /** Shaping an update payload a second time changes nothing more. */
  lemma UpdateTaskPayloadIdempotent(taskData: Object)
    ensures UpdateTaskPayload(UpdateTaskPayload(taskData)) == UpdateTaskPayload(taskData)
  {
    var once := UpdateTaskPayload(taskData);
    if Truthy(Get(taskData, "status")) && taskData["status"].Str? {
      BackendStatusIdempotent(taskData["status"].s);
      if GetBackendStatus(taskData["status"].s) != "" {
        assert once["status"] == Str(GetBackendStatus(taskData["status"].s));
      }
    }
  }

  /** `moveTask`'s body: `{status: getBackendStatus(status)}`. */
  function MoveTaskPayload(status: string): (r: Object)
    ensures r.Keys == {"status"}
    ensures status in FrontendKeys ==> r["status"] == Str(GetBackendStatus(status)) && GetBackendStatus(status) in BackendStatuses
    ensures status !in FrontendKeys ==> r["status"] == Str(status)
  {
    if status in FrontendKeys then map["status" := Str(GetBackendStatus(status))]
    else
      BackendStatusTable(status);
      map["status" := Str(GetBackendStatus(status))]
  }

  /** An HTTP failure: the status code of the response, when there was a response. */
  datatype HttpError = HttpError(responseStatus: Option<int>)

  /** The body `deleteTask` returns for a task that is already gone. */
  const AlreadyDeletedReply: Json :=
    Obj(map["success" := Bool(true), "message" := Str("Task is already deleted")])

  /** `deleteTask`: a 404 counts as success; any other failure is rethrown unchanged. */
  function DeleteTaskOutcome(call: Result<Json, HttpError>): (r: Result<Json, HttpError>)
    ensures r.Err? <==> call.Err? && call.error.responseStatus != Some(404)
    ensures r.Err? ==> r == call
    ensures call.Ok? ==> r == call
    ensures call.Err? && call.error.responseStatus == Some(404) ==> Truthy(Prop(r.value, "success"))
  {
    match call
    case Ok(_) => call
    case Err(e) => if e.responseStatus == Some(404) then Ok(AlreadyDeletedReply) else call
  }

  /** Deleting a task twice: when the second request finds nothing (404), it still succeeds. */
  lemma RepeatedDeleteSucceeds(first: Result<Json, HttpError>)
    requires first.Ok?
    ensures DeleteTaskOutcome(first).Ok?
    ensures DeleteTaskOutcome(Err(HttpError(Some(404)))) == Ok(AlreadyDeletedReply)
  {
  }
}
