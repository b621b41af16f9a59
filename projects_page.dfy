/**
 * The public projects page: a category selector narrowing the store's
 * projects, with a message when nothing is left to show.
 */
module ProjectsPage {
  import opened Records
  import opened Collections

  const AllCategories := "All"
  const CategoryKey := "category"

  /** The effect's result: the whole list for "All", else the projects of that category. */
  function FilteredProjects(projects: seq<Record>, selected: string): (r: seq<Record>)
    ensures selected == AllCategories ==> r == projects
    ensures selected != AllCategories ==> forall p :: p in r <==> p in projects && Matches(p, CategoryKey, selected)
    ensures selected != AllCategories ==> |r| == CountWhere(projects, KeyIs(CategoryKey, selected))
    ensures IsSubsequence(r, projects)
  {
    if selected == AllCategories then
      IsSubsequenceRefl(projects);
      projects
    else
      FilterIsSubsequence(projects, KeyIs(CategoryKey, selected));
      Filter(projects, KeyIs(CategoryKey, selected))
  }

  /** The "No projects found" message is rendered. */
  predicate ShowsNoProjects(projects: seq<Record>, selected: string)
  {
    |FilteredProjects(projects, selected)| == 0
  }

  /**
   * The message appears exactly when there are no projects at all under
   * "All", or when no project has the chosen category.
   */
  lemma NoProjectsMessage(projects: seq<Record>, selected: string)
    ensures ShowsNoProjects(projects, selected) <==>
      if selected == AllCategories then projects == []
      else forall p :: p in projects ==> !Matches(p, CategoryKey, selected)
  {
    var r := FilteredProjects(projects, selected);
    if |r| != 0 {
      assert r[0] in r;
    }
  }

  /** Choosing a category twice in a row shows the same list as choosing it once. */
  lemma FilterStable(projects: seq<Record>, selected: string)
    ensures FilteredProjects(FilteredProjects(projects, selected), selected) == FilteredProjects(projects, selected)
  {
    if selected != AllCategories {
      FilterIdempotent(projects, KeyIs(CategoryKey, selected));
    }
  }
}
