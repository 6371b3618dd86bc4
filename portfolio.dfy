/** The "Selected Works" grid (`components/Portfolio.tsx`): the project-type filter tabs and
    the filtered list they select. The page's list is the catalogue `Content.Projects`. */
module PortfolioPage {
  import opened Types
  import opened Lists
  import Content

  /** The selected tab: `'All'` or one `ProjectType`. */
  datatype ProjectFilter = AllProjects | OnlyType(projectType: ProjectType) {
    /** The tab's label, which is also the value compared to decide the highlighted tab. */
    function Label(): string {
      match this
      case AllProjects => "All"
      case OnlyType(t) => t.Name()
    }
  }

  const InitialFilter: ProjectFilter := AllProjects

  /** `['All', ...Object.values(ProjectType)]`, in the enum's declaration order. */
  const FilterOptions: seq<ProjectFilter> := [AllProjects, OnlyType(Produced), OnlyType(Mixed), OnlyType(Mastered)]

  /** Every possible selection has exactly one tab, and no two tabs share a label, so
      exactly one tab is highlighted at a time. */
  lemma OneTabPerFilter(filter: ProjectFilter)
    ensures filter in FilterOptions
    ensures forall i, j :: 0 <= i < j < |FilterOptions| ==> FilterOptions[i].Label() != FilterOptions[j].Label()
  {
    match filter
    case AllProjects => assert FilterOptions[0] == filter;
    case OnlyType(t) => assert FilterOptions[if t == Produced then 1 else if t == Mixed then 2 else 3] == filter;
  }

  function OfType(t: ProjectType): Project -> bool {
    (p: Project) => p.projectType == t
  }

  /** `filteredProjects`: the list itself for `All`; otherwise exactly the projects of that
      type, each as often as in the list, in their original order. */
  function FilteredProjects(filter: ProjectFilter, projects: seq<Project>): (shown: seq<Project>)
    ensures filter.AllProjects? ==> shown == projects
    ensures filter.OnlyType? ==> forall p :: p in shown <==> p in projects && p.projectType == filter.projectType
    ensures filter.OnlyType? ==> forall p :: multiset(shown)[p] == if p.projectType == filter.projectType then multiset(projects)[p] else 0
    ensures IsSubsequence(shown, projects)
  {
    match filter
    case AllProjects =>
      SubsequenceReflexive(projects);
      projects
    case OnlyType(t) =>
      FilterIsSubsequence(projects, OfType(t));
      Filter(projects, OfType(t))
  }

  /** The three type tabs split the list: every project appears under exactly one of them. */
  lemma {:induction false} TypeTabsPartition(projects: seq<Project>)
    ensures |FilteredProjects(OnlyType(Produced), projects)| + |FilteredProjects(OnlyType(Mixed), projects)|
          + |FilteredProjects(OnlyType(Mastered), projects)| == |projects|
  {
    if projects != [] {
      TypeTabsPartition(projects[1..]);
    }
  }

  /** What the page shows under a tab: the filter applied to its catalogue. */
  function PageProjects(filter: ProjectFilter): (shown: seq<Project>)
    ensures |shown| <= |Content.Projects|
    ensures forall p :: p in shown ==> p in Content.Projects
  {
    FilteredProjects(filter, Content.Projects)
  }

  datatype Icon = DiscIcon | SlidersIcon | MicIcon

  /** `getIcon`: an icon for every project type (the match is exhaustive). */
  function GetIcon(t: ProjectType): Icon {
    match t
    case Produced => DiscIcon
    case Mixed => SlidersIcon
    case Mastered => MicIcon
  }

  /** Distinct project types get distinct icons. */
  lemma IconsDistinguishTypes(t: ProjectType, u: ProjectType)
    ensures GetIcon(t) == GetIcon(u) <==> t == u
  {
  }
}
