/**
 * src/components/projectlist/ProjectList.jsx: the project list view. Fetched projects are
 * decorated with the overdue flag (stored as `isCompleted`) and the days remaining, the
 * displayed list is the filtered then sorted project list, and edits and deletes update
 * the list and the toast message.
 *
 * Date parsing is a parameter `parse` (None for an unparsable date) and "now" is an input.
 */
module ProjectListView {
  import opened Wrappers
  import opened Lists
  import opened Sorting
  import opened Text
  import opened Entities
  import opened Metrics
  import opened FilterService
  import opened BrowserState

  /** The status values a project is saved with: the option values of the project form's status select. */
  const StoredStatuses: seq<string> := ["Not Started", "In Progress", "Completed"]

  /** The filter options as the view lists them. */
  const AsWrittenFilters: seq<string> := ["In-Progress", "Completed", "Not Started"]

  /**
   * The filter options with the in-progress value spelled as projects store it: the
   * intended menu, against which `EveryStatusSelectable` is proved.
   */
  const Filters: seq<string> := ["In Progress", "Completed", "Not Started"]

  const DeletedMessage := "Project deleted successfully"
  const NoPermissionMessage := "You do not have permission to delete this project"
  const DeleteErrorMessage := "Error deleting project"
  const UpdatedMessage := "Project updated successfully"

  /**
   * The record `fetchProjects` and `handleProjectUpdated` build: the project with the
   * overdue flag and the days remaining set and every other field as it was.
   */
  function Decorate(p: Project, now: int, parse: string -> Option<int>): (r: Project)
    ensures r.id == p.id && r.name == p.name && r.status == p.status
    ensures r.endDate == p.endDate && r.createdAt == p.createdAt
    ensures r.isCompleted == Some(IsOverdue(parse(p.endDate), p.status, now))
    ensures r.remainingDays == Some(RemainingDaysOf(parse(p.endDate), now))
    ensures p.status == Completed ==> r.isCompleted == Some(false)
    ensures r.isCompleted == Some(true) ==> r.remainingDays == Some(0)
  {
    p.(isCompleted := Some(IsOverdue(parse(p.endDate), p.status, now)),
       remainingDays := Some(RemainingDaysOf(parse(p.endDate), now)))
  }

  /** `response.data.map(...)`: every fetched project decorated, in order. */
  function DecorateAll(ps: seq<Project>, now: int, parse: string -> Option<int>): (r: seq<Project>)
    ensures |r| == |ps|
    ensures forall i :: 0 <= i < |ps| ==> r[i] == Decorate(ps[i], now, parse)
  {
    seq(|ps|, i requires 0 <= i < |ps| => Decorate(ps[i], now, parse))
  }

  /** Decorating keeps every project's id, so the list's ids are unchanged. */
  lemma DecorateAllKeepsIds(ps: seq<Project>, now: int, parse: string -> Option<int>)
    ensures Ids(DecorateAll(ps, now, parse), ProjectId) == Ids(ps, ProjectId)
  {
  }

  /** The filter-then-sort effect. */
  function Displayed(projects: seq<Project>, filter: string, sort: ProjectField): (r: seq<Project>)
    ensures multiset(r) == multiset(FilterProjects(projects, filter))
    ensures SortedBy(r, ProjectKey(sort), StrLess)
  {
    SortProjects(FilterProjects(projects, filter), sort)
  }

  /**
   * The displayed list holds exactly the projects that pass the filter, each as often as
   * in the full list, in non-decreasing order of the sort key, with projects of equal key
   * in list order.
   */
  lemma DisplayedIsFilteredAndSorted(projects: seq<Project>, filter: string, sort: ProjectField, p: Project, k: string)
    ensures multiset(Displayed(projects, filter, sort))[p]
         == if filter == "" || p.status == filter then multiset(projects)[p] else 0
    ensures SortedBy(Displayed(projects, filter, sort), ProjectKey(sort), StrLess)
    ensures Filter(Displayed(projects, filter, sort), HasKey(ProjectKey(sort), k))
         == Filter(FilterProjects(projects, filter), HasKey(ProjectKey(sort), k))
  {
    SortProjectsIsStableSort(FilterProjects(projects, filter), sort, k);
    FilterProjectsKeepsOrder(projects, [], filter, p);
  }

  /**
   * The 'In-Progress' option as written matches no saved project: whatever the list holds,
   * choosing it displays nothing.
   */
  lemma AsWrittenInProgressMatchesNothing(projects: seq<Project>, sort: ProjectField)
    requires forall i :: 0 <= i < |projects| ==> projects[i].status in StoredStatuses
    ensures AsWrittenFilters[0] !in StoredStatuses
    ensures Displayed(projects, AsWrittenFilters[0], sort) == []
  {
  }

  /**
   * With the corrected options every saved status can be selected, and selecting a
   * status displays every project that has it.
   */
  lemma EveryStatusSelectable(projects: seq<Project>, sort: ProjectField, p: Project)
    requires p in projects && p.status in StoredStatuses
    ensures p.status in Filters
    ensures p in Displayed(projects, p.status, sort)
  {
    SortProjectsIsStableSort(FilterProjects(projects, p.status), sort, "");
    assert p in FilterProjects(projects, p.status);
    assert p in multiset(FilterProjects(projects, p.status));
  }

  /** What a delete reported: success, or the failure's response status (None when no response arrived). */
  datatype DeleteOutcome = Deleted | DeleteFailed(status: Option<int>)

  /** The toast after a delete: 403 means no permission; any other failure is a generic error. */
  function DeleteMessage(outcome: DeleteOutcome): (m: string)
    ensures outcome == Deleted <==> m == DeletedMessage
    ensures m == NoPermissionMessage <==> outcome == DeleteFailed(Some(403))
    ensures outcome.DeleteFailed? && outcome.status != Some(403) ==> m == DeleteErrorMessage
  {
    match outcome
    case Deleted => DeletedMessage
    case DeleteFailed(status) => if status == Some(403) then NoPermissionMessage else DeleteErrorMessage
  }

  /**
   * The view's state. Handlers change `projects`, `filter` and `sort`; the effect on
   * `[projects, filter, sort]` then recomputes `filteredProjects`, so between a handler and
   * the effect the displayed list still shows the previous state.
   */
  class ProjectList {
    var projects: seq<Project>
    var filteredProjects: seq<Project>
    var filter: string
    var sort: ProjectField
    var userRole: Option<string>
    var projectToEdit: Option<Project>
    var showCreateProject: bool
    var toastMessage: string
    var showToast: bool

    constructor()
      ensures projects == [] && filteredProjects == [] && filter == "" && sort == Name
      ensures userRole == None && projectToEdit == None && !showCreateProject
      ensures toastMessage == "" && !showToast
      ensures filteredProjects == Displayed(projects, filter, sort)
    {
      projects := [];
      filteredProjects := [];
      filter := "";
      sort := Name;
      userRole := None;
      projectToEdit := None;
      showCreateProject := false;
      toastMessage := "";
      showToast := false;
    }

    /** The effect on `[projects, filter, sort]`. */
    method ApplyFilterSort()
      modifies this
      ensures filteredProjects == Displayed(projects, filter, sort)
      ensures projects == old(projects) && filter == old(filter) && sort == old(sort)
      ensures userRole == old(userRole) && projectToEdit == old(projectToEdit)
      ensures showCreateProject == old(showCreateProject)
      ensures toastMessage == old(toastMessage) && showToast == old(showToast)
    {
      var result := FilterProjects(projects, filter);
      result := SortProjects(result, sort);
      filteredProjects := result;
    }

    /** The role effect: the role of the stored session, or None. */
    method LoadRole(browser: Browser)
      modifies this
      ensures userRole == RoleOf(browser.user)
      ensures projects == old(projects) && filteredProjects == old(filteredProjects)
      ensures filter == old(filter) && sort == old(sort)
      ensures projectToEdit == old(projectToEdit) && showCreateProject == old(showCreateProject)
      ensures toastMessage == old(toastMessage) && showToast == old(showToast)
    {
      userRole := RoleOf(browser.user);
    }

    /**
     * `fetchProjects` with what `getProjects` returned (None when it failed). The source has
     * no catch here, so a failed fetch rejects before `setProjects` and the list stays.
     */
    method FetchProjects(fetched: Option<seq<Project>>, now: int, parse: string -> Option<int>)
      modifies this
      ensures fetched.Some? ==> projects == DecorateAll(fetched.value, now, parse)
      ensures fetched.None? ==> projects == old(projects)
      ensures filteredProjects == old(filteredProjects) && filter == old(filter) && sort == old(sort)
      ensures userRole == old(userRole) && projectToEdit == old(projectToEdit)
      ensures showCreateProject == old(showCreateProject)
      ensures toastMessage == old(toastMessage) && showToast == old(showToast)
    {
      if fetched.Some? {
        projects := DecorateAll(fetched.value, now, parse);
      }
    }

    /** Choosing an entry of the filter menu: 'All' is the empty filter, the rest are the options as listed. */
    method SetFilter(f: string)
      requires f == "" || f in AsWrittenFilters
      modifies this
      ensures filter == f && projects == old(projects) && sort == old(sort)
      ensures filteredProjects == old(filteredProjects)
      ensures userRole == old(userRole) && projectToEdit == old(projectToEdit)
      ensures showCreateProject == old(showCreateProject)
      ensures toastMessage == old(toastMessage) && showToast == old(showToast)
    {
      filter := f;
    }

    method SetSort(s: ProjectField)
      modifies this
      ensures sort == s && projects == old(projects) && filter == old(filter)
      ensures filteredProjects == old(filteredProjects)
      ensures userRole == old(userRole) && projectToEdit == old(projectToEdit)
      ensures showCreateProject == old(showCreateProject)
      ensures toastMessage == old(toastMessage) && showToast == old(showToast)
    {
      sort := s;
    }

    /**
     * `handleProjectUpdated`: the project with the updated record's id is replaced by the
     * decorated record; the edit form closes and the toast reports the update.
     */
    method HandleProjectUpdated(updated: Project, now: int, parse: string -> Option<int>)
      modifies this
      ensures projects == ReplaceById(old(projects), ProjectId, Decorate(updated, now, parse))
      ensures projectToEdit == None && !showCreateProject
      ensures toastMessage == UpdatedMessage && showToast
      ensures filteredProjects == old(filteredProjects) && filter == old(filter) && sort == old(sort)
      ensures userRole == old(userRole)
    {
      projects := ReplaceById(projects, ProjectId, Decorate(updated, now, parse));
      projectToEdit := None;
      showCreateProject := false;
      toastMessage := UpdatedMessage;
      showToast := true;
    }

    /**
     * `handleDeleteProject`: on success the list is fetched again (`refetched` is what that
     * fetch returns, None when it fails). The refetch is not awaited, so its failure is not
     * caught: the list stays and the success toast still shows. The toast reports the
     * delete's outcome as `DeleteMessage` says.
     */
    method HandleDeleteProject(outcome: DeleteOutcome, refetched: Option<seq<Project>>, now: int, parse: string -> Option<int>)
      modifies this
      ensures toastMessage == DeleteMessage(outcome) && showToast
      ensures outcome == Deleted && refetched.Some? ==> projects == DecorateAll(refetched.value, now, parse)
      ensures outcome != Deleted || refetched.None? ==> projects == old(projects)
      ensures filteredProjects == old(filteredProjects) && filter == old(filter) && sort == old(sort)
      ensures userRole == old(userRole) && projectToEdit == old(projectToEdit)
      ensures showCreateProject == old(showCreateProject)
    {
      if outcome == Deleted {
        FetchProjects(refetched, now, parse);
      }
      toastMessage := DeleteMessage(outcome);
      showToast := true;
    }

    method HandleEditProject(p: Project)
      modifies this
      ensures projectToEdit == Some(p) && showCreateProject
      ensures projects == old(projects) && filteredProjects == old(filteredProjects)
      ensures filter == old(filter) && sort == old(sort)
      ensures userRole == old(userRole)
      ensures toastMessage == old(toastMessage) && showToast == old(showToast)
    {
      projectToEdit := Some(p);
      showCreateProject := true;
    }

    method HandleCancel()
      modifies this
      ensures projectToEdit == None && !showCreateProject
      ensures projects == old(projects) && filteredProjects == old(filteredProjects)
      ensures filter == old(filter) && sort == old(sort)
      ensures userRole == old(userRole)
      ensures toastMessage == old(toastMessage) && showToast == old(showToast)
    {
      projectToEdit := None;
      showCreateProject := false;
    }

    /** The toast's `onClose`, called when it is dismissed or when `autohide` fires after three seconds: the toast is hidden and its message kept. */
    method HideToast()
      modifies this
      ensures !showToast
      ensures projects == old(projects) && filteredProjects == old(filteredProjects) && filter == old(filter)
      ensures sort == old(sort) && userRole == old(userRole) && projectToEdit == old(projectToEdit)
      ensures showCreateProject == old(showCreateProject) && toastMessage == old(toastMessage)
    {
      showToast := false;
    }
  }
}
