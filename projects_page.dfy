/** The projects list page: search and status filtering, sorting, per-project
    task counts and progress, and the status badge. */
module ProjectsPage {
  import opened Wrappers
  import opened Seqs
  import opened Text
  import Types

  /** A project as the page holds it; dates are the millisecond timestamps
      `new Date(...).getTime()` yields. */
  datatype ClientProject = ClientProject(
    id: string,
    name: string,
    description: string,
    status: string,
    createdAt: int,
    updatedAt: int)

  datatype ClientTask = ClientTask(id: string, projectId: string, status: string)

  /** The `sortBy` select; any value other than the first three sorts by
      last update. */
  datatype SortKey = ByName | ByStatus | ByCreated | ByUpdated

  function SortKeyOf(sortBy: string): SortKey {
    if sortBy == "name" then ByName
    else if sortBy == "status" then ByStatus
    else if sortBy == "created" then ByCreated
    else ByUpdated
  }

  /** The comparator passed to `sort`, as "`a` may come before `b`". */
  predicate Precedes(key: SortKey, a: ClientProject, b: ClientProject) {
    match key
    case ByName => LexLe(a.name, b.name)
    case ByStatus => LexLe(a.status, b.status)
    case ByCreated => a.createdAt >= b.createdAt
    case ByUpdated => a.updatedAt >= b.updatedAt
  }

  function Order(key: SortKey): (ClientProject, ClientProject) -> bool {
    (a, b) => Precedes(key, a, b)
  }

  lemma {:induction false} OrderIsTotalPreorder(key: SortKey)
    ensures TotalPreorder(Order(key))
  {
    var le := Order(key);
    forall a, b ensures le(a, b) || le(b, a) {
      LexLeTotal(a.name, b.name);
      LexLeTotal(a.status, b.status);
    }
    forall a, b, c | le(a, b) && le(b, c) ensures le(a, c) {
      match key
      case ByName => LexLeTransitive(a.name, b.name, c.name);
      case ByStatus => LexLeTransitive(a.status, b.status, c.status);
      case ByCreated =>
      case ByUpdated =>
    }
  }

  predicate MatchesSearch(p: ClientProject, query: string) {
    Contains(Lower(p.name), Lower(query)) || Contains(Lower(p.description), Lower(query))
  }

  predicate MatchesStatus(p: ClientProject, statusFilter: string) {
    statusFilter == "all" || p.status == statusFilter
  }

  predicate Shown(p: ClientProject, query: string, statusFilter: string) {
    MatchesSearch(p, query) && MatchesStatus(p, statusFilter)
  }

  /** The `filter` callback. */
  function ShownBy(query: string, statusFilter: string): ClientProject -> bool {
    p => Shown(p, query, statusFilter)
  }

  /** `filteredProjects`: the projects matching the search and the status
      filter, each as often as in the input, ordered by the chosen key. */
  function FilteredProjects(projects: seq<ClientProject>, query: string, statusFilter: string, sortBy: string)
    : (r: seq<ClientProject>)
    ensures forall p :: multiset(r)[p] == if Shown(p, query, statusFilter) then multiset(projects)[p] else 0
    ensures forall p :: p in r <==> p in projects && Shown(p, query, statusFilter)
    ensures SortedBy(r, Order(SortKeyOf(sortBy)))
  {
    var kept := Filter(projects, ShownBy(query, statusFilter));
    OrderIsTotalPreorder(SortKeyOf(sortBy));
    SortBySorted(kept, Order(SortKeyOf(sortBy)));
    var r := SortBy(kept, Order(SortKeyOf(sortBy)));
    assert forall p :: p in r <==> p in multiset(r);
    r
  }

  /** The sort is stable: projects whose sort keys are equal to those of `k`
      are listed in the order the unsorted list has them. */
  lemma FilteredProjectsStable(projects: seq<ClientProject>, query: string, statusFilter: string,
                               sortBy: string, k: ClientProject)
    ensures var ties := Ties(Order(SortKeyOf(sortBy)), k);
      Filter(FilteredProjects(projects, query, statusFilter, sortBy), ties) ==
      Filter(Filter(projects, ShownBy(query, statusFilter)), ties)
  {
    OrderIsTotalPreorder(SortKeyOf(sortBy));
    SortByStable(Filter(projects, ShownBy(query, statusFilter)), Order(SortKeyOf(sortBy)), k);
  }

  /** With an empty search and the "all" filter every project is listed. */
  lemma NoCriteriaShowsAll(projects: seq<ClientProject>, sortBy: string)
    ensures multiset(FilteredProjects(projects, "", "all", sortBy)) == multiset(projects)
  {
    forall p | p in projects ensures Shown(p, "", "all") {
      ContainsEmpty(Lower(p.name));
    }
    var r := FilteredProjects(projects, "", "all", sortBy);
    forall p ensures multiset(r)[p] == multiset(projects)[p] {
      if p !in projects {
        assert multiset(projects)[p] == 0;
      }
    }
  }

  /** `projectTasks`: the tasks of one project. */
  function ProjectTasks(tasks: seq<ClientTask>, projectId: string): (r: seq<ClientTask>)
    ensures forall t :: multiset(r)[t] == if t.projectId == projectId then multiset(tasks)[t] else 0
    ensures forall t :: t in r <==> t in tasks && t.projectId == projectId
  {
    Filter(tasks, (t: ClientTask) => t.projectId == projectId)
  }

  /** `completedTasks`: those of them whose status is "done". */
  function CompletedTasks(tasks: seq<ClientTask>, projectId: string): (r: seq<ClientTask>)
    ensures |r| <= |ProjectTasks(tasks, projectId)|
    ensures forall t :: multiset(r)[t] == if t.projectId == projectId && t.status == "done" then multiset(tasks)[t] else 0
    ensures forall t :: t in r <==> t in tasks && t.projectId == projectId && t.status == "done"
  {
    Filter(ProjectTasks(tasks, projectId), (t: ClientTask) => t.status == "done")
  }

  /** `progress`, in exact arithmetic: the share of done tasks as a
      percentage, 0 for a project without tasks. */
  function Progress(tasks: seq<ClientTask>, projectId: string): (r: real)
    ensures 0.0 <= r <= 100.0
    ensures |ProjectTasks(tasks, projectId)| == 0 ==> r == 0.0
    ensures |ProjectTasks(tasks, projectId)| > 0 ==>
      IsPercentage(r, |CompletedTasks(tasks, projectId)|, |ProjectTasks(tasks, projectId)|)
    ensures r == 100.0 <==>
      |ProjectTasks(tasks, projectId)| > 0 &&
      forall t :: t in ProjectTasks(tasks, projectId) ==> t.status == "done"
  {
    FilterKeepsAllIff(ProjectTasks(tasks, projectId), (t: ClientTask) => t.status == "done");
    Percent(|CompletedTasks(tasks, projectId)|, |ProjectTasks(tasks, projectId)|)
  }

  /** `r` is `part` out of `total` as a percentage: `r * total == 100 * part`. */
  predicate IsPercentage(r: real, part: nat, total: nat) {
    r * (total as real) == 100.0 * (part as real)
  }

  /** `total > 0 ? (completed / total) * 100 : 0`. */
  function Percent(c: nat, n: nat): (r: real)
    requires c <= n
    ensures 0.0 <= r <= 100.0
    ensures n == 0 ==> r == 0.0
    ensures n > 0 ==> IsPercentage(r, c, n)
    ensures r == 100.0 <==> n > 0 && c == n
  {
    if n > 0 then
      var q := c as real / n as real;
      assert q * (n as real) == c as real;
      assert (1.0 - q) * (n as real) == (n - c) as real;
      assert q == 1.0 ==> c as real == n as real;
      q * 100.0
    else 0.0
  }

  /** `getStatusColor`: a declared status becomes its badge variant (the
      status with "_" written "-"); any other value shows as "archived". */
  function StatusBadge(status: string): (r: string)
    ensures r == "archived" <==> Types.ParseProjectStatus(status) in {None, Some(Types.Archived)}
    ensures Types.ParseProjectStatus(status) == Some(Types.Completed) ==> r == "completed"
    ensures Types.ParseProjectStatus(status) == Some(Types.InProgress) ==> r == "in-progress"
    ensures Types.ParseProjectStatus(status) == Some(Types.Planning) ==> r == "planning"
  {
    match status
    case "completed" => "completed"
    case "in_progress" => "in-progress"
    case "planning" => "planning"
    case _ => "archived"
  }
}
