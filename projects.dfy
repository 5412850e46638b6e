/**
 * The project gallery: the project records, the category filter, the status
 * colour and icon, and the section's state (the selected category and the
 * visible-element set).
 */
module Projects {
  import opened Wrappers
  import Visibility

  datatype Category = Anime | Web | Game | Mobile
  datatype Status = Completed | InProgress | Planned

  /** The string a category is written as in a project record. */
  function CategoryName(c: Category): string
  {
    match c
    case Anime => "anime"
    case Web => "web"
    case Game => "game"
    case Mobile => "mobile"
  }

  /** The string a status is written as in a project record. */
  function StatusName(s: Status): string
  {
    match s
    case Completed => "completed"
    case InProgress => "in-progress"
    case Planned => "planned"
  }

  /** A project record; its title and description are already translated. */
  datatype Project = Project(
    id: int,
    title: string,
    description: string,
    technologies: seq<string>,
    githubUrl: string,
    liveUrl: Option<string>,
    image: string,
    category: Category,
    status: Status)

  /** The shipped projects, with their texts looked up through the translation function `t`. */
  function ProjectList(t: string -> string): (r: seq<Project>)
    ensures |r| == 3
    ensures forall i, j :: 0 <= i < j < |r| ==> r[i].id != r[j].id
    ensures forall i :: 0 <= i < |r| ==> r[i].category == Web
    ensures r[0].title == t("project.pokemon.title") && r[1].title == t("project.portfolio.title")
    ensures r[2].title == t("project.icebot.title")
  {
    [ Project(1, t("project.pokemon.title"), t("project.pokemon.description"),
              ["React", "Tailwind", "Framer", "REST API"],
              "https://github.com/yourusername/anime-db", Some("https://anime-db-demo.vercel.app"),
              "/pokemon.gif", Web, Completed),
      Project(2, t("project.portfolio.title"), t("project.portfolio.description"),
              ["React", "TypeScript", "Vite", "CSS3"],
              "https://github.com/yourusername/anime-portfolio", Some("https://your-portfolio.vercel.app"),
              "/cyberpunk.gif", Web, InProgress),
      Project(3, t("project.icebot.title"), t("project.icebot.description"),
              ["Node.js", "OAuth2", "Discord.js", "Cron"],
              "https://github.com/yourusername/anime-portfolio", Some("https://your-portfolio.vercel.app"),
              "/dist/cute-chibi-anime-girl-3650hb74dgmqpp9e.gif", Web, InProgress) ]
  }

  /** The keys of the category buttons the gallery renders: only "all". */
  const CategoryKeys: seq<string> := ["all"]

  /** `xs` is `ys` with some elements left out, the rest in their original order. */
  ghost predicate IsSubsequence<T>(xs: seq<T>, ys: seq<T>)
    decreases |ys|
  {
    xs == [] || (ys != [] && ((xs[0] == ys[0] && IsSubsequence(xs[1..], ys[1..])) || IsSubsequence(xs, ys[1..])))
  }

  /** `projects.filter(project => project.category === category)`. */
  function FilterByCategory(projects: seq<Project>, category: string): (r: seq<Project>)
    ensures |r| <= |projects|
    ensures IsSubsequence(r, projects)
    ensures forall p :: p in r <==> p in projects && CategoryName(p.category) == category
  {
    if projects == [] then []
    else
      var rest := FilterByCategory(projects[1..], category);
      assert projects == [projects[0]] + projects[1..];
      if CategoryName(projects[0].category) == category then [projects[0]] + rest else rest
  }

  /** The filter keeps every matching record as many times as the input holds it, and no other. */
  lemma {:induction false} FilterKeepsMultiplicity(projects: seq<Project>, category: string, p: Project)
    ensures multiset(FilterByCategory(projects, category))[p] ==
      if CategoryName(p.category) == category then multiset(projects)[p] else 0
  {
    if projects != [] {
      FilterKeepsMultiplicity(projects[1..], category, p);
      assert projects == [projects[0]] + projects[1..];
    }
  }

  /** The list the gallery shows: everything for "all", otherwise the matching records in order. */
  function Filtered(projects: seq<Project>, activeCategory: string): (r: seq<Project>)
    ensures |r| <= |projects|
    ensures IsSubsequence(r, projects)
    ensures activeCategory == "all" ==> r == projects
    ensures activeCategory != "all" ==>
      forall p :: p in r <==> p in projects && CategoryName(p.category) == activeCategory
  {
    if activeCategory == "all" then
      IsSubsequenceOfItself(projects);
      projects
    else FilterByCategory(projects, activeCategory)
  }

  lemma {:induction false} IsSubsequenceOfItself<T>(xs: seq<T>)
    ensures IsSubsequence(xs, xs)
  {
    if xs != [] {
      IsSubsequenceOfItself(xs[1..]);
    }
  }

  /** When every record matches, the filter keeps the list as it is. */
  lemma {:induction false} FilterKeepsAllMatching(projects: seq<Project>, category: string)
    requires forall i :: 0 <= i < |projects| ==> CategoryName(projects[i].category) == category
    ensures FilterByCategory(projects, category) == projects
  {
    if projects != [] {
      FilterKeepsAllMatching(projects[1..], category);
    }
  }

  /** When no record matches, including for a category no record has, the result is empty. */
  lemma {:induction false} NoMatchYieldsEmpty(projects: seq<Project>, activeCategory: string)
    requires activeCategory != "all"
    requires forall i :: 0 <= i < |projects| ==> CategoryName(projects[i].category) != activeCategory
    ensures Filtered(projects, activeCategory) == []
  {
    if projects != [] {
      NoMatchYieldsEmpty(projects[1..], activeCategory);
    }
  }

  /** Filtering the filtered list by the same category changes nothing. */
  lemma FilterIsIdempotent(projects: seq<Project>, activeCategory: string)
    ensures Filtered(Filtered(projects, activeCategory), activeCategory) == Filtered(projects, activeCategory)
  {
    if activeCategory != "all" {
      FilterKeepsAllMatching(Filtered(projects, activeCategory), activeCategory);
    }
  }

  /** Every shipped project is a web project: "web" shows them all, "anime" none. */
  lemma ShippedProjectsAreWeb(t: string -> string)
    ensures Filtered(ProjectList(t), "web") == ProjectList(t)
    ensures Filtered(ProjectList(t), "anime") == []
  {
    var projects := ProjectList(t);
    FilterKeepsAllMatching(projects, "web");
    NoMatchYieldsEmpty(projects, "anime");
  }

  /** Any category a rendered button can select shows every project. */
  lemma CategoryButtonsShowEverything(projects: seq<Project>, key: string)
    requires key in CategoryKeys
    ensures Filtered(projects, key) == projects
  {
  }

  const KnownStatusNames := {"completed", "in-progress", "planned"}

  /** `getStatusColor`: a colour class per known status, grey for anything else. */
  function StatusColor(status: string): (r: string)
    ensures r == "text-gray-400" <==> status !in KnownStatusNames
  {
    match status
    case "completed" => "text-green-400"
    case "in-progress" => "text-cyan-400"
    case "planned" => "text-purple-400"
    case _ => "text-gray-400"
  }

  /** `getStatusIcon`: an icon per known status, a question mark for anything else. */
  function StatusIcon(status: string): (r: string)
    ensures r == "❓" <==> status !in KnownStatusNames
  {
    match status
    case "completed" => "✅"
    case "in-progress" => "⚡"
    case "planned" => "📋"
    case _ => "❓"
  }

  /** The colour and icon each status of a record gets; distinct statuses look distinct. */
  lemma StatusPresentation(s: Status, other: Status)
    ensures StatusName(s) in KnownStatusNames
    ensures s == Completed ==> StatusColor(StatusName(s)) == "text-green-400" && StatusIcon(StatusName(s)) == "✅"
    ensures s == InProgress ==> StatusColor(StatusName(s)) == "text-cyan-400" && StatusIcon(StatusName(s)) == "⚡"
    ensures s == Planned ==> StatusColor(StatusName(s)) == "text-purple-400" && StatusIcon(StatusName(s)) == "📋"
    ensures s != other ==> StatusColor(StatusName(s)) != StatusColor(StatusName(other))
    ensures s != other ==> StatusIcon(StatusName(s)) != StatusIcon(StatusName(other))
  {
  }

  /** The gallery's state. */
  class ProjectsSection {
    var activeCategory: string
    const visibleElements: Visibility.VisibleElements

    constructor ()
      ensures activeCategory == "all"
      ensures fresh(visibleElements) && visibleElements.elements == {}
    {
      activeCategory := "all";
      visibleElements := new Visibility.VisibleElements();
    }

    /** A category button's click handler. */
    method SelectCategory(key: string)
      modifies this
      ensures activeCategory == key
    {
      activeCategory := key;
    }

    /** The observer callback; the selected category is untouched. */
    method ObserverCallback(entries: seq<Visibility.Entry>)
      modifies visibleElements
      ensures visibleElements.elements == Visibility.Apply(old(visibleElements.elements), entries)
    {
      visibleElements.ObserverCallback(entries);
    }

    /** `filteredProjects` for the current selection. */
    function FilteredProjects(projects: seq<Project>): (r: seq<Project>)
      reads this
      ensures activeCategory == "all" ==> r == projects
      ensures IsSubsequence(r, projects)
    {
      Filtered(projects, activeCategory)
    }
  }
}
