/**
 * Frontend/src/api/projects.js: the in-memory project store behind the
 * project API. The store array is the one piece of state; reads return its
 * entries, creation appends, update replaces one entry by a merged copy.
 * Delays are dropped; the clock readings are parameters.
 */
module ProjectsApi {
  import opened Wrappers
  import opened JsValues
  import JsStrings
  import Seqs

  const NotFound := "Project not found"

  predicate HasId(p: Object, id: string) {
    Get(p, "id") == Str(id)
  }

  /** `findIndex(p => p.id === projectId)`. */
  function IndexOfProject(store: seq<Object>, id: string): (r: Option<nat>)
    ensures r.Some? ==> r.value < |store| && HasId(store[r.value], id)
    ensures r.Some? ==> forall j :: 0 <= j < r.value ==> !HasId(store[j], id)
    ensures r.None? <==> forall i :: 0 <= i < |store| ==> !HasId(store[i], id)
  {
    Seqs.FindIndex(store, (p: Object) => HasId(p, id))
  }

  /**
   * The project `createProject` builds: a generated id the caller's own id
   * overrides, the caller's fields, then an empty task list and the creation
   * time, which nothing the caller passes can override.
   */
  function NewProject(projectData: Object, now: nat, createdAt: string): (p: Object)
    ensures Get(p, "tasks") == Arr([]) && Get(p, "createdAt") == Str(createdAt)
    ensures "id" in projectData ==> Get(p, "id") == projectData["id"]
    ensures "id" !in projectData ==> Get(p, "id") == Str("project-" + JsStrings.NatText(now))
    ensures forall k :: k in projectData && k != "tasks" && k != "createdAt" ==> k in p && p[k] == projectData[k]
    ensures p.Keys == projectData.Keys + {"id", "tasks", "createdAt"}
  {
    map["id" := Str("project-" + JsStrings.NatText(now))] + projectData
      + map["tasks" := Arr([]), "createdAt" := Str(createdAt)]
  }

  /** `{...current, ...updateData, updatedAt}`: update fields win, the rest is kept, and the time is stamped. */
  function Merge(current: Object, updateData: Object, updatedAt: string): (p: Object)
    ensures Get(p, "updatedAt") == Str(updatedAt)
    ensures forall k :: k in updateData && k != "updatedAt" ==> k in p && p[k] == updateData[k]
    ensures forall k :: k in current && k !in updateData && k != "updatedAt" ==> k in p && p[k] == current[k]
    ensures p.Keys == current.Keys + updateData.Keys + {"updatedAt"}
  {
    current + updateData + map["updatedAt" := Str(updatedAt)]
  }

  /** The store after `updateProject`: the first entry with the id replaced by its merge, or unchanged. */
  function Updated(store: seq<Object>, id: string, updateData: Object, updatedAt: string): (r: seq<Object>)
    ensures |r| == |store|
    ensures IndexOfProject(store, id).None? ==> r == store
    ensures IndexOfProject(store, id).Some? ==>
      var i := IndexOfProject(store, id).value;
      r[i] == Merge(store[i], updateData, updatedAt) && forall j :: 0 <= j < |store| && j != i ==> r[j] == store[j]
  {
    match IndexOfProject(store, id)
    case None => store
    case Some(i) => store[i := Merge(store[i], updateData, updatedAt)]
  }

  /** An update that keeps the id can be looked up again under that id, and yields the merged entry. */
  lemma UpdateThenFind(store: seq<Object>, id: string, updateData: Object, updatedAt: string)
    requires IndexOfProject(store, id).Some?
    requires "id" !in updateData || updateData["id"] == Str(id)
    ensures var i := IndexOfProject(store, id).value;
      IndexOfProject(Updated(store, id, updateData, updatedAt), id) == Some(i)
  {
    var i := IndexOfProject(store, id).value;
    var r := Updated(store, id, updateData, updatedAt);
    assert HasId(r[i], id);
    var k := IndexOfProject(r, id);
    assert k.Some?;
  }

  /** A created project whose id no earlier project has is found under that id, as the last entry. */
  lemma CreateThenFind(store: seq<Object>, projectData: Object, now: nat, createdAt: string, id: string)
    requires Get(NewProject(projectData, now, createdAt), "id") == Str(id)
    requires forall i :: 0 <= i < |store| ==> !HasId(store[i], id)
    ensures IndexOfProject(store + [NewProject(projectData, now, createdAt)], id) == Some(|store|)
  {
    var s := store + [NewProject(projectData, now, createdAt)];
    assert HasId(s[|store|], id);
    assert forall i :: 0 <= i < |store| ==> s[i] == store[i];
  }

  class Store {
    var mockProjects: seq<Object>

    /** The store seeded with its fixed sample projects. */
    constructor(seed: seq<Object>)
      ensures mockProjects == seed
    {
      mockProjects := seed;
    }

    method GetProjects() returns (r: seq<Object>)
      ensures r == mockProjects
    {
      r := mockProjects;
    }

    /** The first project with the id, or the error "Project not found". */
    method GetProjectDetails(projectId: string) returns (r: Result<Object, string>)
      ensures r.Ok? <==> exists i :: 0 <= i < |mockProjects| && HasId(mockProjects[i], projectId)
      ensures r.Ok? ==> r.value == mockProjects[IndexOfProject(mockProjects, projectId).value]
      ensures r.Err? ==> r.error == NotFound
    {
      var found := Seqs.Find(mockProjects, (p: Object) => HasId(p, projectId));
      if found.Some? {
        r := Ok(found.value);
      } else {
        r := Err(NotFound);
      }
    }

    method CreateProject(projectData: Object, now: nat, createdAt: string) returns (p: Object)
      modifies this
      ensures p == NewProject(projectData, now, createdAt)
      ensures mockProjects == old(mockProjects) + [p]
    {
      p := NewProject(projectData, now, createdAt);
      mockProjects := mockProjects + [p];
    }

    method UpdateProject(projectId: string, updateData: Object, updatedAt: string) returns (r: Result<Object, string>)
      modifies this
      ensures mockProjects == Updated(old(mockProjects), projectId, updateData, updatedAt)
      ensures IndexOfProject(old(mockProjects), projectId).None? ==> r == Err(NotFound)
      ensures IndexOfProject(old(mockProjects), projectId).Some? ==>
        r == Ok(mockProjects[IndexOfProject(old(mockProjects), projectId).value])
    {
      var index := IndexOfProject(mockProjects, projectId);
      if index.Some? {
        mockProjects := mockProjects[index.value := Merge(mockProjects[index.value], updateData, updatedAt)];
        r := Ok(mockProjects[index.value]);
      } else {
        r := Err(NotFound);
      }
    }
  }
}
