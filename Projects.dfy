/** app/projects/page.tsx: a category bar filters a constant list of
    projects, and each card links to the project's repository and live site
    when it has them. */
module Projects {
  import opened JsValues
  import opened Seqs

  /** `Project.category` (types/index.ts). */
  datatype ProjectCategory = Web | Mobile

  /** A project: the fields the filter and the links read (the description, image
      and technologies are left out). `github` and `live` are optional fields. */
  datatype Project = Project(title: string, category: ProjectCategory, github: Field, live: Field)

  /** A category button: 'all', or one category. */
  datatype CategoryId = All | Only(category: ProjectCategory)

  const Https := "https://"
  const GitHubUser := Https + "github.com/benjaminbelloeil/"
  const RockwellLive := Https + "rockwell-web.vercel.app/LoginForm"
  const PortfolioLive := Https + "benjaminbelloeilportfolio-benjamin-belloeils-projects.vercel.app/"

  const ProjectList: seq<Project> := [
    Project("Meetly - Social Location App", Mobile, Some(""), Some("")),
    Project("BufeTec - Legal Services Platform", Mobile, Some(GitHubUser + "BufetecApp"), Some("")),
    Project("StudentCalendar - Academic Management", Mobile, Some(GitHubUser + "StudentCalendar"), Some("")),
    Project("CineScope - Movie Discovery App", Mobile, Some(GitHubUser + "MovieApp"), Some("")),
    Project("Rockwell Interactive Platform", Web, Some(GitHubUser + "RockwellWeb"), Some(RockwellLive)),
    Project("Portfolio v1.0 - Personal Brand", Web, Some(GitHubUser + "Portfolio_Benjamin"), Some(PortfolioLive)),
    Project("TaskFlow - Productivity Suite", Web, Some(GitHubUser + "TodoList"), Some(""))
  ]

  /** The category buttons, in bar order. */
  const CategoryIds: seq<CategoryId> := [All, Only(Web), Only(Mobile)]

  /** The filter's test: `activeCategory === 'all' || project.category === activeCategory`. */
  function ShownUnder(active: CategoryId): Project -> bool {
    (p: Project) => active == All || active == Only(p.category)
  }

  /** `filteredProjects`: every project under 'all', otherwise exactly the projects of
      the active category. */
  function FilteredProjects(projects: seq<Project>, active: CategoryId): (r: seq<Project>)
    ensures active == All ==> r == projects
    ensures forall p :: p in r <==> p in projects && (active == All || p.category == active.category)
  {
    var keep := ShownUnder(active);
    if active == All then
      FilterAll(projects, keep);
      Filter(projects, keep)
    else
      Filter(projects, keep)
  }

  /** Each filtered list keeps list order and the multiplicity of every project it shows. */
  lemma FilteredProjectsInOrder(projects: seq<Project>, active: CategoryId, p: Project)
    ensures IsSubsequence(FilteredProjects(projects, active), projects)
    ensures multiset(FilteredProjects(projects, active))[p]
         == if active == All || p.category == active.category then multiset(projects)[p] else 0
  {
    FilterIsSubsequence(projects, ShownUnder(active));
    FilterCounts(projects, ShownUnder(active), p);
  }

  /** Every project is of exactly one category, so the Web and the Mobile lists together
      hold every project of the full list, each as often as it occurs there. */
  lemma WebMobilePartition(projects: seq<Project>)
    ensures multiset(FilteredProjects(projects, Only(Web))) + multiset(FilteredProjects(projects, Only(Mobile)))
         == multiset(FilteredProjects(projects, All))
    ensures forall p :: !(p in FilteredProjects(projects, Only(Web)) && p in FilteredProjects(projects, Only(Mobile)))
  {
    var web, mobile := ShownUnder(Only(Web)), ShownUnder(Only(Mobile));
    forall i | 0 <= i < |projects| ensures web(projects[i]) <==> !mobile(projects[i]) {
      match projects[i].category
      case Web =>
      case Mobile =>
    }
    FilterPartition(projects, web, mobile);
  }

  /** The four mobile projects come first, the three web projects after them. */
  lemma CategoryContents()
    ensures FilteredProjects(ProjectList, Only(Mobile)) == ProjectList[..4]
    ensures FilteredProjects(ProjectList, Only(Web)) == ProjectList[4..]
  {
    var ps := ProjectList;
    OneCategoryPrefix(ps, 4);
  }

  /** A list whose first `k` projects are mobile and whose others are web splits at `k`. */
  lemma OneCategoryPrefix(projects: seq<Project>, k: nat)
    requires k <= |projects|
    requires forall i :: 0 <= i < |projects| ==> (projects[i].category == Mobile <==> i < k)
    ensures FilteredProjects(projects, Only(Mobile)) == projects[..k]
    ensures FilteredProjects(projects, Only(Web)) == projects[k..]
  {
    var a, b := projects[..k], projects[k..];
    assert projects == a + b + [];
    FilterMiddle([], a, b, ShownUnder(Only(Mobile)));
    assert [] + a + b == projects;
    FilterMiddle(a, b, [], ShownUnder(Only(Web)));
  }

  /** The repository link: rendered, to `github`, iff the field is a non-empty string. */
  function GitHubLink(p: Project): (href: Option<string>)
    ensures href.Some? <==> Truthy(p.github)
    ensures href.Some? ==> href.value == p.github.value && href.value != ""
  {
    if Truthy(p.github) then Some(p.github.value) else None
  }

  /** The live-site link: rendered, to `live`, iff the field is a non-empty string. */
  function LiveLink(p: Project): (href: Option<string>)
    ensures href.Some? <==> Truthy(p.live)
    ensures href.Some? ==> href.value == p.live.value && href.value != ""
  {
    if Truthy(p.live) then Some(p.live.value) else None
  }

  /** Every project but Meetly links its repository; only Rockwell and the first portfolio
      link a live site. */
  lemma ListedLinks()
    ensures forall i :: 0 <= i < |ProjectList| ==> (GitHubLink(ProjectList[i]).Some? <==> i != 0)
    ensures forall i :: 0 <= i < |ProjectList| ==> (LiveLink(ProjectList[i]).Some? <==> i == 4 || i == 5)
  {
    assert |GitHubUser| > 0 && |RockwellLive| > 0 && |PortfolioLive| > 0;
  }
}
