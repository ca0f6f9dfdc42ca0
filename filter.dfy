/**
 * src/services/filter.js: one equality filter and one single-key ascending sort for
 * projects and for tasks. All four are pure; the sorts work on a copy.
 */
module FilterService {
  import opened Text
  import opened Lists
  import opened Sorting
  import opened Entities

  /** The string order of JavaScript's `<` is one the comparator can sort by. */
  lemma StrLessIsStrictTotalOrder()
    ensures StrictTotalOrder(StrLess)
  {
    forall a: string
      ensures !StrLess(a, a)
    {
      StrLessIrreflexive(a);
    }
    forall a: string, b: string, c: string | StrLess(a, b) && StrLess(b, c)
      ensures StrLess(a, c)
    {
      StrLessTransitive(a, b, c);
    }
    forall a: string, b: string | a != b
      ensures StrLess(a, b) || StrLess(b, a)
    {
      StrLessTotal(a, b);
    }
  }

  function StatusIs(v: string): Project -> bool { (p: Project) => p.status == v }
  function PriorityIs(v: string): Task -> bool { (t: Task) => t.priority == v }

  /** `filterProjects`: the identity for an empty filter, else the projects whose status is it. */
  function FilterProjects(projects: seq<Project>, filter: string): (r: seq<Project>)
    ensures filter == "" ==> r == projects
    ensures forall p :: p in r <==> p in projects && (filter == "" || p.status == filter)
  {
    if filter == "" then projects else Filter(projects, StatusIs(filter))
  }

  /** `filterTasks`: the identity for an empty filter, else the tasks whose priority is it. */
  function FilterTasks(tasks: seq<Task>, filter: string): (r: seq<Task>)
    ensures filter == "" ==> r == tasks
    ensures forall t :: t in r <==> t in tasks && (filter == "" || t.priority == filter)
  {
    if filter == "" then tasks else Filter(tasks, PriorityIs(filter))
  }

  /** A non-empty project filter keeps each matching project as often as it occurs, in input order. */
  lemma FilterProjectsKeepsOrder(a: seq<Project>, b: seq<Project>, filter: string, p: Project)
    ensures FilterProjects(a + b, filter) == FilterProjects(a, filter) + FilterProjects(b, filter)
    ensures multiset(FilterProjects(a, filter))[p]
         == if filter == "" || p.status == filter then multiset(a)[p] else 0
  {
    if filter != "" {
      FilterAppend(a, b, StatusIs(filter));
      FilterCount(a, StatusIs(filter), p);
    }
  }

  /** The same for tasks and their priority. */
  lemma FilterTasksKeepsOrder(a: seq<Task>, b: seq<Task>, filter: string, t: Task)
    ensures FilterTasks(a + b, filter) == FilterTasks(a, filter) + FilterTasks(b, filter)
    ensures multiset(FilterTasks(a, filter))[t]
         == if filter == "" || t.priority == filter then multiset(a)[t] else 0
  {
    if filter != "" {
      FilterAppend(a, b, PriorityIs(filter));
      FilterCount(a, PriorityIs(filter), t);
    }
  }

  /** Filtering an already filtered list with the same value changes nothing. */
  lemma FilterIsIdempotent(projects: seq<Project>, tasks: seq<Task>, filter: string)
    ensures FilterProjects(FilterProjects(projects, filter), filter) == FilterProjects(projects, filter)
    ensures FilterTasks(FilterTasks(tasks, filter), filter) == FilterTasks(tasks, filter)
  {
    if filter != "" {
      FilterIdempotent(projects, StatusIs(filter));
      FilterIdempotent(tasks, PriorityIs(filter));
    }
  }

  /** The project sort options (`ProjectList.jsx`). */
  datatype ProjectField = Name | EndDate | Status

  /** The task sort options (`TaskList.jsx`); all three compare raw strings. */
  datatype TaskField = Title | DueDate | Priority

  function ProjectKey(field: ProjectField): Project -> string {
    match field
    case Name => (p: Project) => p.name
    case EndDate => (p: Project) => p.endDate
    case Status => (p: Project) => p.status
  }

  function TaskKey(field: TaskField): Task -> string {
    match field
    case Title => (t: Task) => t.title
    case DueDate => (t: Task) => t.dueDate
    case Priority => (t: Task) => t.priority
  }

  /** `sortProjects`: the same projects, in non-decreasing order of the chosen field. */
  function SortProjects(projects: seq<Project>, sortBy: ProjectField): (r: seq<Project>)
    ensures multiset(r) == multiset(projects)
    ensures SortedBy(r, ProjectKey(sortBy), StrLess)
  {
    StrLessIsStrictTotalOrder();
    SortBySorted(projects, ProjectKey(sortBy), StrLess);
    SortBy(projects, ProjectKey(sortBy), StrLess)
  }

  /** `sortTasks`: the same tasks, in non-decreasing order of the chosen field. */
  function SortTasks(tasks: seq<Task>, sortBy: TaskField): (r: seq<Task>)
    ensures multiset(r) == multiset(tasks)
    ensures SortedBy(r, TaskKey(sortBy), StrLess)
  {
    StrLessIsStrictTotalOrder();
    SortBySorted(tasks, TaskKey(sortBy), StrLess);
    SortBy(tasks, TaskKey(sortBy), StrLess)
  }

  /**
   * `sortProjects` is a stable sort: a permutation of its input, in non-decreasing key
   * order, with the projects of any one key value k in their input order; sorting again
   * changes nothing.
   */
  lemma SortProjectsIsStableSort(projects: seq<Project>, sortBy: ProjectField, k: string)
    ensures multiset(SortProjects(projects, sortBy)) == multiset(projects)
    ensures SortedBy(SortProjects(projects, sortBy), ProjectKey(sortBy), StrLess)
    ensures Filter(SortProjects(projects, sortBy), HasKey(ProjectKey(sortBy), k))
         == Filter(projects, HasKey(ProjectKey(sortBy), k))
    ensures SortProjects(SortProjects(projects, sortBy), sortBy) == SortProjects(projects, sortBy)
  {
    StrLessIsStrictTotalOrder();
    SortBySorted(projects, ProjectKey(sortBy), StrLess);
    SortByStable(projects, ProjectKey(sortBy), StrLess, k);
    SortByIdempotent(projects, ProjectKey(sortBy), StrLess);
  }

  /** `sortTasks` is a stable sort in the same sense. */
  lemma SortTasksIsStableSort(tasks: seq<Task>, sortBy: TaskField, k: string)
    ensures multiset(SortTasks(tasks, sortBy)) == multiset(tasks)
    ensures SortedBy(SortTasks(tasks, sortBy), TaskKey(sortBy), StrLess)
    ensures Filter(SortTasks(tasks, sortBy), HasKey(TaskKey(sortBy), k))
         == Filter(tasks, HasKey(TaskKey(sortBy), k))
    ensures SortTasks(SortTasks(tasks, sortBy), sortBy) == SortTasks(tasks, sortBy)
  {
    StrLessIsStrictTotalOrder();
    SortBySorted(tasks, TaskKey(sortBy), StrLess);
    SortByStable(tasks, TaskKey(sortBy), StrLess, k);
    SortByIdempotent(tasks, TaskKey(sortBy), StrLess);
  }

  /**
   * Sorting by priority is alphabetical, not by urgency: every 'High' task comes before
   * every 'Low' task, and every 'Low' task before every 'Medium' task.
   */
  lemma PrioritySortIsAlphabetical(tasks: seq<Task>, i: nat, j: nat)
    requires i < |SortTasks(tasks, Priority)| && j < |SortTasks(tasks, Priority)|
    requires SortTasks(tasks, Priority)[j].priority == "High"
    requires SortTasks(tasks, Priority)[i].priority == "Low" || SortTasks(tasks, Priority)[i].priority == "Medium"
    ensures j < i
  {
    var r := SortTasks(tasks, Priority);
    SortTasksIsStableSort(tasks, Priority, "");
    assert StrLess("High", "Low") && StrLess("High", "Medium") && StrLess("Low", "Medium");
  }

  /** Likewise 'Low' sorts before 'Medium'. */
  lemma LowSortsBeforeMedium(tasks: seq<Task>, i: nat, j: nat)
    requires i < |SortTasks(tasks, Priority)| && j < |SortTasks(tasks, Priority)|
    requires SortTasks(tasks, Priority)[j].priority == "Low"
    requires SortTasks(tasks, Priority)[i].priority == "Medium"
    ensures j < i
  {
    var r := SortTasks(tasks, Priority);
    SortTasksIsStableSort(tasks, Priority, "");
    assert StrLess("Low", "Medium");
  }
}
