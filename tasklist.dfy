/**
 * src/components/tasklist/TaskList.jsx: the task list view. The displayed tasks are the
 * tasks of the selected project (all of them when none is selected), filtered by priority
 * and sorted by the chosen field; edits replace the task with the same id; assignees are
 * shown by name; the empty-list message tells apart "filtered away" from "nothing there".
 */
module TaskListView {
  import opened Wrappers
  import opened Lists
  import opened Sorting
  import opened Text
  import opened Entities
  import opened FilterService
  import opened BrowserState

  const Filters: seq<string> := ["High", "Medium", "Low"]
  const UnknownUser := "Unknown"
  const FilteredAwayMessage := "No tasks match the current filters"
  const NoTasksMessage := "No tasks available"
  const TasksErrorMessage := "Error fetching tasks"
  const ProjectsErrorMessage := "Error fetching projects"
  const UsersErrorMessage := "Error fetching users"
  const DeletedMessage := "Task deleted successfully"
  const DeleteErrorMessage := "Error deleting task"
  const UpdatedMessage := "Task updated successfully"
  const CreatedMessage := "Task created successfully"

  function InProject(projectId: string): Task -> bool { (t: Task) => t.project == projectId }

  /** The project step: the empty selection keeps every task, otherwise the tasks of that project in order. */
  function ProjectTasks(tasks: seq<Task>, selectedProject: string): (r: seq<Task>)
    ensures selectedProject == "" ==> r == tasks
    ensures forall t :: t in r <==> t in tasks && (selectedProject == "" || t.project == selectedProject)
  {
    if selectedProject == "" then tasks else Filter(tasks, InProject(selectedProject))
  }

  /** The effect on `[tasks, filter, sort, selectedProject]`: project, then priority, then sort. */
  function VisibleTasks(tasks: seq<Task>, selectedProject: string, filter: string, sort: TaskField): (r: seq<Task>)
    ensures multiset(r) == multiset(FilterTasks(ProjectTasks(tasks, selectedProject), filter))
    ensures SortedBy(r, TaskKey(sort), StrLess)
  {
    SortTasks(FilterTasks(ProjectTasks(tasks, selectedProject), filter), sort)
  }

  /**
   * The visible tasks are exactly those of the selected project with the selected priority,
   * each as often as in `tasks`, ordered by the sort key, ties in list order.
   */
  lemma VisibleTasksAreSelectedAndSorted(tasks: seq<Task>, selectedProject: string, filter: string,
                                         sort: TaskField, t: Task, k: string)
    ensures multiset(VisibleTasks(tasks, selectedProject, filter, sort))[t]
         == if (selectedProject == "" || t.project == selectedProject) && (filter == "" || t.priority == filter)
            then multiset(tasks)[t] else 0
    ensures SortedBy(VisibleTasks(tasks, selectedProject, filter, sort), TaskKey(sort), StrLess)
    ensures Filter(VisibleTasks(tasks, selectedProject, filter, sort), HasKey(TaskKey(sort), k))
         == Filter(FilterTasks(ProjectTasks(tasks, selectedProject), filter), HasKey(TaskKey(sort), k))
  {
    var p := ProjectTasks(tasks, selectedProject);
    SortTasksIsStableSort(FilterTasks(p, filter), sort, k);
    FilterTasksKeepsOrder(p, [], filter, t);
    if selectedProject != "" {
      FilterCount(tasks, InProject(selectedProject), t);
    }
  }

  /** With no project and no priority selected every task is shown, only reordered. */
  lemma NoSelectionShowsEverything(tasks: seq<Task>, sort: TaskField)
    ensures multiset(VisibleTasks(tasks, "", "", sort)) == multiset(tasks)
  {
    SortTasksIsStableSort(tasks, sort, "");
  }

  /** `getUserName`: the name of the first user with the id, or "Unknown" when no user has it. */
  function UserName(users: seq<User>, userId: string): (r: string)
    ensures (forall i :: 0 <= i < |users| ==> users[i].id != userId) ==> r == UnknownUser
    ensures forall i :: 0 <= i < |users| && users[i].id == userId &&
                        (forall j :: 0 <= j < i ==> users[j].id != userId) ==>
              r == users[i].name
  {
    match Find(users, (u: User) => u.id == userId)
    case Some(u) => u.name
    case None => UnknownUser
  }

  /** With unique user ids the assignee's name is that of the one user with the id. */
  lemma UserNameOfUnique(users: seq<User>, k: nat)
    requires UniqueIds(users, UserId) && k < |users|
    ensures UserName(users, users[k].id) == users[k].name
  {
    forall j | 0 <= j < k ensures users[j].id != users[k].id {
      assert UserId(users[j]) != UserId(users[k]);
    }
  }

  /** The text shown when no task is displayed. */
  function EmptyMessage(tasks: seq<Task>, selectedProject: string): (m: string)
    ensures m == FilteredAwayMessage <==>
            selectedProject != "" && exists i :: 0 <= i < |tasks| && tasks[i].project == selectedProject
    ensures m == FilteredAwayMessage || m == NoTasksMessage
  {
    if selectedProject != "" && AnyMatch(tasks, InProject(selectedProject)) then FilteredAwayMessage else NoTasksMessage
  }

  /**
   * "No tasks available" under a selected project means the project has no task at all,
   * so no priority filter could show one; "No tasks match" means the project has tasks.
   */
  lemma EmptyMessageTellsWhy(tasks: seq<Task>, selectedProject: string, filter: string, sort: TaskField)
    requires selectedProject != ""
    ensures EmptyMessage(tasks, selectedProject) == NoTasksMessage ==>
              forall f :: VisibleTasks(tasks, selectedProject, f, sort) == []
    ensures EmptyMessage(tasks, selectedProject) == FilteredAwayMessage ==>
              VisibleTasks(tasks, selectedProject, "", sort) != []
  {
    var p := ProjectTasks(tasks, selectedProject);
    if EmptyMessage(tasks, selectedProject) == NoTasksMessage {
      assert p == [];
      forall f ensures VisibleTasks(tasks, selectedProject, f, sort) == [] {
        assert FilterTasks(p, f) == [];
      }
    } else {
      var i :| 0 <= i < |tasks| && tasks[i].project == selectedProject;
      assert tasks[i] in p;
      SortTasksIsStableSort(p, sort, "");
      assert tasks[i] in multiset(VisibleTasks(tasks, selectedProject, "", sort));
    }
  }

  /** The fetch effect on `[userRole]` asks for the users only for a manager. */
  function FetchesUsers(userRole: Option<string>): (b: bool)
    ensures b <==> userRole == Some(Manager)
  {
    userRole.Some? && userRole.value == Manager
  }

  class TaskList {
    var tasks: seq<Task>
    var projects: seq<Project>
    var users: seq<User>
    var filteredTasks: seq<Task>
    var filter: string
    var sort: TaskField
    var selectedProject: string
    var showCreateTask: bool
    var userRole: Option<string>
    var taskToEdit: Option<Task>
    var showToast: bool
    var toastMessage: string

    constructor()
      ensures tasks == [] && projects == [] && users == [] && filteredTasks == []
      ensures filter == "" && sort == Title && selectedProject == ""
      ensures !showCreateTask && userRole == None && taskToEdit == None
      ensures !showToast && toastMessage == ""
      ensures filteredTasks == VisibleTasks(tasks, selectedProject, filter, sort)
    {
      tasks := [];
      projects := [];
      users := [];
      filteredTasks := [];
      filter := "";
      sort := Title;
      selectedProject := "";
      showCreateTask := false;
      userRole := None;
      taskToEdit := None;
      showToast := false;
      toastMessage := "";
    }

    /** The effect on `[tasks, filter, sort, selectedProject]`, reassigning `result` step by step. */
    method ApplyFilters()
      modifies this
      ensures filteredTasks == VisibleTasks(tasks, selectedProject, filter, sort)
      ensures tasks == old(tasks) && filter == old(filter) && sort == old(sort)
      ensures selectedProject == old(selectedProject) && users == old(users)
      ensures toastMessage == old(toastMessage) && showToast == old(showToast)
      ensures projects == old(projects) && showCreateTask == old(showCreateTask) && userRole == old(userRole)
      ensures taskToEdit == old(taskToEdit)
    {
      var result := tasks;
      if selectedProject != "" {
        result := Filter(result, InProject(selectedProject));
      }
      result := FilterTasks(result, filter);
      result := SortTasks(result, sort);
      filteredTasks := result;
    }

    /** The role effect: the role of the stored session, or None. */
    method LoadRole(browser: Browser)
      modifies this
      ensures userRole == RoleOf(browser.user)
      ensures tasks == old(tasks) && users == old(users) && filteredTasks == old(filteredTasks)
      ensures projects == old(projects) && filter == old(filter) && sort == old(sort)
      ensures selectedProject == old(selectedProject) && showCreateTask == old(showCreateTask) && taskToEdit == old(taskToEdit)
      ensures showToast == old(showToast) && toastMessage == old(toastMessage)
    {
      userRole := RoleOf(browser.user);
    }

    /** `showNotification`. */
    method ShowNotification(message: string)
      modifies this
      ensures toastMessage == message && showToast
      ensures tasks == old(tasks) && projects == old(projects) && users == old(users)
      ensures filteredTasks == old(filteredTasks) && userRole == old(userRole)
      ensures taskToEdit == old(taskToEdit) && showCreateTask == old(showCreateTask)
      ensures filter == old(filter) && sort == old(sort) && selectedProject == old(selectedProject)
    {
      toastMessage := message;
      showToast := true;
    }

    /** `fetchTasks` with the fetch's result (None when it fails). */
    method FetchTasks(fetched: Option<seq<Task>>)
      modifies this
      ensures fetched.Some? ==> tasks == fetched.value && toastMessage == old(toastMessage) && showToast == old(showToast)
      ensures fetched.None? ==> tasks == old(tasks) && toastMessage == TasksErrorMessage && showToast
      ensures projects == old(projects) && users == old(users) && filteredTasks == old(filteredTasks)
      ensures userRole == old(userRole) && taskToEdit == old(taskToEdit) && showCreateTask == old(showCreateTask)
      ensures filter == old(filter) && sort == old(sort) && selectedProject == old(selectedProject)
    {
      if fetched.Some? {
        tasks := fetched.value;
      } else {
        ShowNotification(TasksErrorMessage);
      }
    }

    /**
     * The effect on `[userRole]`: tasks and projects are fetched, and users too when the
     * role is manager. The fetches' results are inputs, applied in call order, so when
     * several fail the toast shows the error of the last one called.
     */
    method LoadData(fetchedTasks: Option<seq<Task>>, fetchedProjects: Option<seq<Project>>,
                    fetchedUsers: Option<seq<User>>)
      modifies this
      ensures tasks == if fetchedTasks.Some? then fetchedTasks.value else old(tasks)
      ensures projects == if fetchedProjects.Some? then fetchedProjects.value else old(projects)
      ensures users == if FetchesUsers(userRole) && fetchedUsers.Some? then fetchedUsers.value else old(users)
      ensures FetchesUsers(userRole) && fetchedUsers.None? ==> toastMessage == UsersErrorMessage && showToast
      ensures !(FetchesUsers(userRole) && fetchedUsers.None?) && fetchedProjects.None? ==>
                toastMessage == ProjectsErrorMessage && showToast
      ensures !(FetchesUsers(userRole) && fetchedUsers.None?) && fetchedProjects.Some? && fetchedTasks.None? ==>
                toastMessage == TasksErrorMessage && showToast
      ensures !(FetchesUsers(userRole) && fetchedUsers.None?) && fetchedProjects.Some? && fetchedTasks.Some? ==>
                toastMessage == old(toastMessage) && showToast == old(showToast)
      ensures userRole == old(userRole) && filteredTasks == old(filteredTasks)
      ensures filter == old(filter) && sort == old(sort) && selectedProject == old(selectedProject)
      ensures taskToEdit == old(taskToEdit) && showCreateTask == old(showCreateTask)
    {
      FetchTasks(fetchedTasks);
      if fetchedProjects.Some? {
        projects := fetchedProjects.value;
      } else {
        ShowNotification(ProjectsErrorMessage);
      }
      if FetchesUsers(userRole) {
        if fetchedUsers.Some? {
          users := fetchedUsers.value;
        } else {
          ShowNotification(UsersErrorMessage);
        }
      }
    }

    method SetFilter(f: string)
      modifies this
      ensures filter == f && tasks == old(tasks) && sort == old(sort) && selectedProject == old(selectedProject)
      ensures filteredTasks == old(filteredTasks)
      ensures projects == old(projects) && users == old(users) && showCreateTask == old(showCreateTask)
      ensures userRole == old(userRole) && taskToEdit == old(taskToEdit) && showToast == old(showToast)
      ensures toastMessage == old(toastMessage)
    {
      filter := f;
    }

    method SetSort(s: TaskField)
      modifies this
      ensures sort == s && tasks == old(tasks) && filter == old(filter) && selectedProject == old(selectedProject)
      ensures filteredTasks == old(filteredTasks)
      ensures projects == old(projects) && users == old(users) && showCreateTask == old(showCreateTask)
      ensures userRole == old(userRole) && taskToEdit == old(taskToEdit) && showToast == old(showToast)
      ensures toastMessage == old(toastMessage)
    {
      sort := s;
    }

    method SelectProject(id: string)
      modifies this
      ensures selectedProject == id && tasks == old(tasks) && filter == old(filter) && sort == old(sort)
      ensures filteredTasks == old(filteredTasks)
      ensures projects == old(projects) && users == old(users) && showCreateTask == old(showCreateTask)
      ensures userRole == old(userRole) && taskToEdit == old(taskToEdit) && showToast == old(showToast)
      ensures toastMessage == old(toastMessage)
    {
      selectedProject := id;
    }

    /**
     * `handleDeleteTask`: after a successful delete the success toast is shown and then the
     * refetch (not awaited) lands; a failed refetch replaces the toast with its own error.
     */
    method HandleDeleteTask(deleted: bool, refetched: Option<seq<Task>>)
      modifies this
      ensures deleted && refetched.Some? ==> tasks == refetched.value && toastMessage == DeletedMessage
      ensures deleted && refetched.None? ==> tasks == old(tasks) && toastMessage == TasksErrorMessage
      ensures !deleted ==> tasks == old(tasks) && toastMessage == DeleteErrorMessage
      ensures showToast && users == old(users) && filteredTasks == old(filteredTasks)
      ensures projects == old(projects) && filter == old(filter) && sort == old(sort)
      ensures selectedProject == old(selectedProject) && showCreateTask == old(showCreateTask) && userRole == old(userRole)
      ensures taskToEdit == old(taskToEdit)
    {
      if deleted {
        ShowNotification(DeletedMessage);
        FetchTasks(refetched);
      } else {
        ShowNotification(DeleteErrorMessage);
      }
    }

    method HandleEditTask(task: Task)
      modifies this
      ensures taskToEdit == Some(task) && showCreateTask
      ensures tasks == old(tasks) && filteredTasks == old(filteredTasks)
      ensures projects == old(projects) && users == old(users) && filter == old(filter)
      ensures sort == old(sort) && selectedProject == old(selectedProject) && userRole == old(userRole)
      ensures showToast == old(showToast) && toastMessage == old(toastMessage)
    {
      taskToEdit := Some(task);
      showCreateTask := true;
    }

    /** `handleTaskUpdated`: the task with the updated id is replaced in place. */
    method HandleTaskUpdated(updatedTask: Task)
      modifies this
      ensures tasks == ReplaceById(old(tasks), TaskId, updatedTask)
      ensures taskToEdit == None && !showCreateTask
      ensures toastMessage == UpdatedMessage && showToast
      ensures filteredTasks == old(filteredTasks) && users == old(users)
      ensures projects == old(projects) && filter == old(filter) && sort == old(sort)
      ensures selectedProject == old(selectedProject) && userRole == old(userRole)
    {
      tasks := ReplaceById(tasks, TaskId, updatedTask);
      taskToEdit := None;
      showCreateTask := false;
      ShowNotification(UpdatedMessage);
    }

    method HandleCancel()
      modifies this
      ensures taskToEdit == None && !showCreateTask
      ensures tasks == old(tasks) && filteredTasks == old(filteredTasks)
      ensures projects == old(projects) && users == old(users) && filter == old(filter)
      ensures sort == old(sort) && selectedProject == old(selectedProject) && userRole == old(userRole)
      ensures showToast == old(showToast) && toastMessage == old(toastMessage)
    {
      taskToEdit := None;
      showCreateTask := false;
    }

    /** `handleTaskCreated`: the form closes, the success toast shows, then the refetch lands. */
    method HandleTaskCreated(refetched: Option<seq<Task>>)
      modifies this
      ensures !showCreateTask && showToast
      ensures refetched.Some? ==> tasks == refetched.value && toastMessage == CreatedMessage
      ensures refetched.None? ==> tasks == old(tasks) && toastMessage == TasksErrorMessage
      ensures filteredTasks == old(filteredTasks) && users == old(users)
      ensures projects == old(projects) && filter == old(filter) && sort == old(sort)
      ensures selectedProject == old(selectedProject) && userRole == old(userRole) && taskToEdit == old(taskToEdit)
    {
      showCreateTask := false;
      ShowNotification(CreatedMessage);
      FetchTasks(refetched);
    }

    /** The toast's `onClose`, called when it is dismissed or when `autohide` fires after three seconds: the toast is hidden and its message kept. */
    method HideToast()
      modifies this
      ensures !showToast
      ensures tasks == old(tasks) && projects == old(projects) && users == old(users)
      ensures filteredTasks == old(filteredTasks) && filter == old(filter) && sort == old(sort)
      ensures selectedProject == old(selectedProject) && showCreateTask == old(showCreateTask) && userRole == old(userRole)
      ensures taskToEdit == old(taskToEdit) && toastMessage == old(toastMessage)
    {
      showToast := false;
    }
  }
}
