/**
 * Frontend/src/pages/DashboardPage.jsx: the dashboard's project list, the
 * create-project modal flag and the search over the mock projects.
 */
module DashboardPage {
  import opened JsValues
  import JsStrings
  import Seqs
  import MockData

  /** Every project has a string title and description (`toLowerCase` on anything else throws). */
  predicate Searchable(projects: seq<Object>) {
    forall i :: 0 <= i < |projects| ==> Get(projects[i], "title").Str? && Get(projects[i], "description").Str?
  }

  /** The search predicate: title or description contains the query, ignoring ASCII case. */
  predicate Matches(p: Object, query: string) {
    var title := Get(p, "title");
    var description := Get(p, "description");
    (title.Str? && JsStrings.Includes(JsStrings.Lower(title.s), JsStrings.Lower(query)))
    || (description.Str? && JsStrings.Includes(JsStrings.Lower(description.s), JsStrings.Lower(query)))
  }

  /** The projects that match the query, in their original order. */
  function SearchResults(projects: seq<Object>, query: string): (r: seq<Object>)
    requires Searchable(projects)
    ensures forall i :: 0 <= i < |r| ==> Matches(r[i], query) && r[i] in projects
    ensures forall i :: 0 <= i < |projects| && Matches(projects[i], query) ==> projects[i] in r
    ensures Seqs.IsSubsequence(r, projects)
    ensures forall p :: multiset(r)[p] == if Matches(p, query) then multiset(projects)[p] else 0
  {
    var keep := (p: Object) => Matches(p, query);
    Seqs.FilterSpec(projects, keep);
    Seqs.Filter(projects, keep)
  }

  lemma MockProjectsSearchable()
    ensures Searchable(MockData.Projects)
  {
  }

  /**
   * The match uses the query untrimmed: surrounding whitespace can only lose
   * matches, since whatever the padded query matches the trimmed one matches too.
   */
  lemma PaddingOnlyNarrows(p: Object, query: string)
    requires Matches(p, query)
    ensures Matches(p, JsStrings.Trim(query))
  {
    var k := |query| - |JsStrings.TrimStart(query)|;
    JsStrings.TrimOccurs(query);
    JsStrings.LowerOccurs(query, JsStrings.Trim(query), k);
    var title := Get(p, "title");
    var description := Get(p, "description");
    if title.Str? && JsStrings.Includes(JsStrings.Lower(title.s), JsStrings.Lower(query)) {
      JsStrings.IncludesInfix(JsStrings.Lower(title.s), JsStrings.Lower(query), JsStrings.Lower(JsStrings.Trim(query)), k);
    } else {
      JsStrings.IncludesInfix(JsStrings.Lower(description.s), JsStrings.Lower(query), JsStrings.Lower(JsStrings.Trim(query)), k);
    }
  }

  class Page {
    /** The imported sample projects: the list the page starts from, restores and searches. */
    const catalogue: seq<Object>
    var isCreateModalOpen: bool
    var projectsList: seq<Object>
    var searchQuery: string
    var isLoading: bool

    constructor()
      ensures catalogue == MockData.Projects && Searchable(catalogue)
      ensures !isCreateModalOpen && projectsList == catalogue && searchQuery == "" && !isLoading
    {
      catalogue := MockData.Projects;
      MockProjectsSearchable();
      isCreateModalOpen := false;
      projectsList := MockData.Projects;
      searchQuery := "";
      isLoading := false;
    }

    method OpenCreateModal()
      modifies this
      ensures isCreateModalOpen
      ensures projectsList == old(projectsList) && searchQuery == old(searchQuery) && isLoading == old(isLoading)
    {
      isCreateModalOpen := true;
    }

    /** The new project goes first and the modal closes. */
    method HandleCreateProject(project: Object)
      modifies this
      ensures projectsList == [project] + old(projectsList) && !isCreateModalOpen
      ensures searchQuery == old(searchQuery) && isLoading == old(isLoading)
    {
      projectsList := [project] + projectsList;
      isCreateModalOpen := false;
    }

    method SetSearchQuery(value: string)
      modifies this
      ensures searchQuery == value
      ensures projectsList == old(projectsList) && isCreateModalOpen == old(isCreateModalOpen) && isLoading == old(isLoading)
    {
      searchQuery := value;
    }

    /**
     * Search: a blank query restores the mock list; any other query filters
     * the mock list (never the current one) by the query as typed.
     */
    method HandleSearch()
      requires Searchable(catalogue)
      modifies this
      ensures JsStrings.IsBlank(searchQuery) ==> projectsList == catalogue && isLoading == old(isLoading)
      ensures !JsStrings.IsBlank(searchQuery) ==> projectsList == SearchResults(catalogue, searchQuery) && !isLoading
      ensures searchQuery == old(searchQuery) && isCreateModalOpen == old(isCreateModalOpen)
    {
      if JsStrings.IsBlank(searchQuery) {
        projectsList := catalogue;
        return;
      }
      isLoading := true;
      projectsList := SearchResults(catalogue, searchQuery);
      isLoading := false;
    }

    method ResetSearch()
      modifies this
      ensures searchQuery == "" && projectsList == catalogue
      ensures isCreateModalOpen == old(isCreateModalOpen) && isLoading == old(isLoading)
    {
      searchQuery := "";
      projectsList := catalogue;
    }
  }
}
