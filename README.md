# Project management dashboard: a verified model of its client core

This Dafny project models the client side of a React project-management dashboard:

- the shared services: the filter and sort helpers, the HTTP client with its token-refresh
  interceptor, and the registration and login calls;
- the notification store;
- the views and forms that keep their own state: the project list, the task list, the team
  list, and the create-project, create-team, create-report and register forms;
- the home page's charts.

Each source file becomes one Dafny module. Support modules hold what several files share:

- `Wrappers`: Option and Result.
- `Text`: JavaScript string order, `endsWith`, `includes`, ASCII `toLowerCase`.
- `Lists`: `filter`, `find`, replace-by-id, `splice`.
- `Sorting`: a stable sort by key.
- `Entities`: users, projects, tasks, teams.
- `Members`: the id test and the remove-by-id both member forms use.
- `Metrics`: remaining days, overdue, `Math.round` percentages.
- `BrowserState`: `localStorage` and the location.

A component whose handlers update React state becomes a `class`:

- Each `useState` variable is a field.
- Each handler is a method. Its `ensures` states the new state in terms of the old one,
  usually through a function of this model.
- Lemmas about those functions carry the properties the views rely on. Examples: filtering
  then sorting shows exactly the matching records, sorted and stable; an update replaces
  exactly one record; the histograms count every element once.

The outside world enters as parameters of the model:

- backend replies, as Option/Result values or as total functions from request to reply;
- the current time, as `now` in milliseconds;
- date parsing, as `parse: string -> Option<int>`, where None is an invalid date;
- today's date, as text.

## Model

| member | source | states |
|---|---|---|
| FilterService.FilterProjects | src/services/filter.js:1-4 | an empty (falsy) filter returns the list itself; otherwise exactly the projects whose status equals the filter are kept |
| FilterService.FilterTasks | src/services/filter.js:14-17 | an empty filter returns the list itself; otherwise exactly the tasks whose priority equals the filter are kept |
| FilterService.SortProjects | src/services/filter.js:6-12 | the result holds the same projects with the same multiplicities, in non-decreasing order of the chosen field under string comparison |
| FilterService.SortTasks | src/services/filter.js:19-25 | the result holds the same tasks with the same multiplicities, in non-decreasing order of the chosen field under string comparison |
| FilterService.FilterProjectsKeepsOrder | src/services/filter.js:1-4 | filtering distributes over concatenation, so the kept projects stay in list order, and each kept project keeps its multiplicity |
| FilterService.FilterTasksKeepsOrder | src/services/filter.js:14-17 | the same for tasks: order and multiplicities are kept |
| FilterService.FilterIsIdempotent | src/services/filter.js:1-4 | filtering twice by the same value equals filtering once, for projects and for tasks |
| FilterService.StrLessIsStrictTotalOrder | src/services/filter.js:8-9 | the `<` / `>` comparison on strings is a strict total order, so the comparator is consistent |
| FilterService.SortProjectsIsStableSort | src/services/filter.js:6-12 | the sorted copy is a permutation of the input, ascending by the chosen field, keeps the input order of records with equal keys, and sorting again changes nothing |
| FilterService.SortTasksIsStableSort | src/services/filter.js:19-25 | the same for tasks by title, due date or priority |
| FilterService.PrioritySortIsAlphabetical | src/services/filter.js:19-25 | sorting by priority compares the words, so every "High" task comes before every "Low" or "Medium" task |
| FilterService.LowSortsBeforeMedium | src/services/filter.js:19-25 | likewise every "Low" task precedes every "Medium" task, which is not severity order |
| Text.StrLessIrreflexive | src/services/filter.js:8-9 | no string is less than itself |
| Text.StrLessTransitive | src/services/filter.js:8-9 | string order is transitive |
| Text.StrLessTotal | src/services/filter.js:8-9 | two different strings are always ordered one way or the other |
| Text.ToLower | src/pages/register/Register.jsx:22-26 | lowering keeps the length and maps every character on its own |
| Text.SuffixSurvivesLowering | src/pages/register/Register.jsx:22-26 | an email that ends with a lower-case suffix still ends with it after lowering |
| Sorting.Insert | src/services/filter.js:7-11 | inserting adds exactly one element to the multiset |
| Sorting.SortBy | src/services/filter.js:7-11 | the sort is a permutation of its input |
| Sorting.InsertSorted | src/services/filter.js:7-11 | inserting into a sorted list under a strict total order gives a sorted list |
| Sorting.SortBySorted | src/services/filter.js:7-11 | the result is sorted by the key |
| Sorting.InsertStable | src/services/filter.js:7-11 | the inserted element goes after every element with its key |
| Sorting.SortByStable | src/services/filter.js:7-11 | the elements with any one key keep their input order |
| Sorting.SortByKeepsSorted | src/services/filter.js:7-11 | a list that is already sorted comes back unchanged |
| Sorting.SortByIdempotent | src/services/filter.js:7-11 | sorting a sorted result again changes nothing |
| Lists.Filter | src/context/NotificationContext.js:25 | the kept elements are exactly the input elements satisfying the predicate, and there are no more than the input's |
| Lists.FilterCount | src/context/NotificationContext.js:25 | an element that satisfies the predicate keeps its multiplicity; any other element is dropped entirely |
| Lists.FilterIdempotent | src/context/NotificationContext.js:25 | filtering twice by the same predicate equals filtering once |
| Lists.FilterKeepsAll | src/context/NotificationContext.js:25 | when every element satisfies the predicate, the list is unchanged |
| Lists.FilterKeepsUniqueIds | src/components/createteam/CreateTeam.jsx:78 | removing members keeps their ids unique |
| Lists.Find | src/components/createteam/CreateTeam.jsx:64 | `find` returns None exactly when no element matches; otherwise the first matching element |
| Lists.Ids | src/components/createteam/CreateTeam.jsx:89 | the id list is as long as the list and aligned with it |
| Lists.ReplaceById | src/components/projectlist/ProjectList.jsx:78 | the `map` keeps the length; each entry is the update when its id matches, otherwise itself |
| Lists.ReplaceByIdKeepsIds | src/components/projectlist/ProjectList.jsx:78 | replacing by id never changes the list's ids |
| Lists.ReplaceByIdAbsent | src/components/teamlist/TeamList.jsx:83 | an update whose id no entry has leaves the list unchanged |
| Lists.ReplaceByIdExactlyOne | src/components/tasklist/TaskList.jsx:93 | with unique ids, an update whose id is at index k changes exactly entry k |
| Lists.ReplaceByIdAppend | src/components/teamlist/TeamList.jsx:83 | replacing by id distributes over concatenation |
| Lists.RemoveAt | src/components/createreport/CreateReport.jsx:218-219 | `splice(i, 1)` drops entry i: earlier entries stay, later ones move down one place |
| Lists.RemoveAtUndoesAppend | src/components/createreport/CreateReport.jsx:217-226 | removing the entry just appended restores the list |
| Lists.RemoveAtAfterUpdate | src/components/createreport/CreateReport.jsx:187-220 | removing an entry after overwriting it is the same as removing it |
| Metrics.RemainingDays | src/components/projectlist/ProjectList.jsx:108-114 | a past or present end date gives 0 days; a future one gives the smallest whole number of days covering the gap (`Math.ceil`) |
| Metrics.RemainingDaysOf | src/components/createproject/CreateProject.jsx:59-70 | an invalid date gives 0, because a NaN difference fails `daysDiff > 0`; otherwise it gives the remaining days |
| Metrics.IsOverdue | src/components/projectlist/ProjectList.jsx:41 | overdue exactly when the end date parses, lies before now and the status is not "Completed"; an overdue project has 0 remaining days |
| Metrics.Percent | src/components/createreport/CreateReport.jsx:75 | a non-positive whole gives 0; otherwise the exact percentage 100·part/whole rounded half up, as `Math.round` would round it without floating-point error |
| Metrics.PercentBounds | src/components/createreport/CreateReport.jsx:75 | a part between 0 and a positive whole gives a percentage between 0 and 100 |
| BrowserState.Browser.constructor | src/services/auth.js:58-64 | a fresh browser has nothing stored, no role, and the given location |
| BrowserState.RoleOf | src/components/projectlist/ProjectList.jsx:26-29 | the role is present exactly when a session is stored, and then it is that session's user role |
| Api.Attach | src/services/api.js:12-20 | a stored session with a non-empty token sets `Authorization: Bearer <token>`; otherwise the header is left as it was; path and retry flag are untouched |
| Api.NewRequest | src/services/api.js:5-10 | a new request starts with the client's default header and is not yet retried |
| Api.LoggedOut | src/services/api.js:35-39 | the failed-refresh path removes the stored session and goes to /login, but keeps the default header |
| Api.Dispatch | src/services/api.js:22-43 | one request sends at most two backend requests and at most one refresh post; a retried request is never refreshed again; a resolved outcome is a 2xx reply; the stored session changes only in its token; the location changes only to /login with the session gone |
| Api.SuccessPassesThrough | src/services/api.js:23 | a 2xx reply passes through unchanged, and nothing else is sent or stored |
| Api.OtherErrorsRejectedUnchanged | src/services/api.js:41 | a non-401 error, or a 401 on a replayed request, is rejected as it came and the state is untouched |
| Api.RefreshAndReplay | src/services/api.js:26-34 | a first 401 posts the stored refresh token once, stores the new token, sets the default header, and replays the request marked retried with the new bearer token; the replay's answer is final |
| Api.FailedRefreshLogsOut | src/services/api.js:35-39 | a refresh with no stored session, or one the server refuses, logs out, redirects to /login and rejects with the refresh error rather than the 401 |
| Api.DefaultHeaderOutlivesLogout | src/services/api.js:33 | after a refresh and a logout, a new request still carries the refreshed bearer token, because the default header is never cleared |
| Api.Gateway.constructor | src/services/api.js:5-10 | the client starts with no default Authorization header |
| Api.Gateway.Send | src/services/api.js:12-43 | both interceptors around one config: the outcome and the new browser and client state are those `Dispatch` specifies; the stored 'userRole' is never touched |
| Api.Gateway.Call | src/services/api.js:45-60 | an endpoint call builds a fresh config from the defaults and behaves as `Dispatch` on it; the stored 'userRole' is never touched |
| Auth.RegisterEndpoint | src/services/auth.js:5-20 | registration is allowed exactly for a manager with an @manager.com email or a team member with an @example.com email, and goes to that role's endpoint; every other case fails with its own message |
| Auth.RegisterErrorMessage | src/services/auth.js:31-34 | a 400 reply shows the server's message, or the default text when that is empty; any other failure keeps its own message |
| Auth.RegisterUser | src/services/auth.js:5-36 | a post happens exactly when the role and email checks pass, only to that role's endpoint and never to the plain register endpoint; a failed check returns its message; a post's reply or mapped error is returned |
| Auth.InvalidRoleNeverPosts | src/services/auth.js:18-20 | an unknown role fails with the invalid-role message and sends nothing |
| Auth.LoginEndpoint | src/services/auth.js:39-45 | login goes to the manager endpoint exactly for @manager.com, to the team-member endpoint exactly for @example.com, and to the plain endpoint otherwise |
| Auth.SuffixesExclusive | src/services/auth.js:41-44 | no email ends with both suffixes |
| Auth.RegisterAndLoginAgree | src/services/auth.js:8-17 | an email that registration accepts for a role logs in at that role's endpoint |
| Auth.StoreLogin | src/services/auth.js:51-54 | a reply with a token stores the session and its user's role; a reply without one, or a failure, stores nothing |
| Auth.LoginUser | src/services/auth.js:38-56 | posts to `LoginEndpoint(email)`, returns the reply and updates storage as `StoreLogin` says, without navigating |
| Auth.Logout | src/services/auth.js:58-60 | removes the stored session only; the stored role stays |
| Auth.GetCurrentUser | src/services/auth.js:62-64 | returns the stored session |
| RegisterPage.PageCheck | src/pages/register/Register.jsx:18-29 | mismatched passwords are reported first; then a team member or manager whose lower-cased email lacks the role's suffix gets that role's message; otherwise the form passes |
| RegisterPage.ShownError | src/pages/register/Register.jsx:35-39 | a duplicate-key error shows the account-exists text; any other non-empty message is shown as it is; an empty one shows the retry text; the shown error is never empty |
| RegisterPage.Submit | src/pages/register/Register.jsx:15-41 | a failed page check shows its message and calls nothing; otherwise the service is called, success navigates to /login, and a failure shows `ShownError` of its message |
| RegisterPage.SuffixesAreLowerCase | src/pages/register/Register.jsx:22-26 | both suffixes are already lower case |
| RegisterPage.ServiceCheckImpliesPageCheck | src/pages/register/Register.jsx:22-29 | any email the service accepts for a role also passes the page's lower-cased check |
| RegisterPage.MixedCaseManagerEmail | src/pages/register/Register.jsx:26 | an "@Manager.com" email passes the page check but is refused by the service, whose check is case-sensitive, with the manager message |
| RegisterPage.EmptyRoleReachesService | src/pages/register/Register.jsx:22-31 | with no role chosen the page check passes and the service's invalid-role message is shown |
| RegisterPage.RegisterView.constructor | src/pages/register/Register.jsx:7-12 | the form starts empty with no error |
| RegisterPage.RegisterView.HandleSubmit | src/pages/register/Register.jsx:15-41 | the error, the navigation and the service call are those `Submit` computes from the form |
| Notifications.Added | src/context/NotificationContext.js:19-21 | the new notification goes last and the others are kept in order |
| Notifications.Removed | src/context/NotificationContext.js:23-27 | exactly the notifications with other ids remain, each with its multiplicity |
| Notifications.RemovedKeepsOrder | src/context/NotificationContext.js:23-27 | removal keeps the remaining notifications in order: it distributes over concatenation and keeps a single entry exactly when its id differs |
| Notifications.RemoveAbsent | src/context/NotificationContext.js:23-27 | removing an id no notification has changes nothing |
| Notifications.RemoveIdempotent | src/context/NotificationContext.js:23-27 | removing an id twice equals removing it once |
| Notifications.RemoveUndoesAdd | src/context/NotificationContext.js:19-27 | removing a notification just added under a fresh id restores the list |
| Notifications.RemoveOtherKeepsAdd | src/context/NotificationContext.js:19-27 | removing another id commutes with adding |
| Notifications.NotificationProvider.constructor | src/context/NotificationContext.js:7 | the store starts empty |
| Notifications.NotificationProvider.AddNotification | src/context/NotificationContext.js:19-21 | the store becomes `Added` of the old store |
| Notifications.NotificationProvider.RemoveNotification | src/context/NotificationContext.js:23-27 | the store becomes `Removed` of the old store |
| Notifications.NotificationProvider.Tick | src/context/NotificationContext.js:9-17 | each tick keeps, in order, the notifications the expiry predicate keeps |
| ProjectListView.Decorate | src/components/projectlist/ProjectList.jsx:39-43 | a fetched project keeps its data and gains the overdue flag and remaining days; a completed project is never overdue, and an overdue one has 0 days left |
| ProjectListView.DecorateAll | src/components/projectlist/ProjectList.jsx:39-43 | every fetched project is decorated, in order |
| ProjectListView.DecorateAllKeepsIds | src/components/projectlist/ProjectList.jsx:39-43 | decorating keeps the list's ids |
| ProjectListView.DisplayedIsFilteredAndSorted | src/components/projectlist/ProjectList.jsx:31-35 | the displayed list holds exactly the matching projects, each with its multiplicity, sorted by the chosen field and stable |
| ProjectListView.Displayed | src/components/projectlist/ProjectList.jsx:31-35 | the displayed list is a permutation of the filtered projects, sorted by the chosen field |
| ProjectListView.AsWrittenInProgressMatchesNothing | src/components/projectlist/ProjectList.jsx:94 | the "In-Progress" option as written matches no stored status, so choosing it always shows an empty list |
| ProjectListView.EveryStatusSelectable | src/components/createproject/CreateProject.jsx:221-223 | with the option spelled as stored, every stored status is offered, and its filter shows every project with it |
| ProjectListView.DeleteMessage | src/components/projectlist/ProjectList.jsx:52-65 | the success message appears exactly on success; the no-permission message appears exactly on a 403; any other failure gets the generic error |
| ProjectListView.ProjectList.constructor | src/components/projectlist/ProjectList.jsx:9-19 | the view starts empty, unfiltered, sorted by name, with no role and no toast |
| ProjectListView.ProjectList.ApplyFilterSort | src/components/projectlist/ProjectList.jsx:31-35 | the shown list becomes `Displayed` of the current projects, filter and sort; nothing else changes |
| ProjectListView.ProjectList.LoadRole | src/components/projectlist/ProjectList.jsx:26-29 | the role is read from the stored session |
| ProjectListView.ProjectList.FetchProjects | src/components/projectlist/ProjectList.jsx:37-45 | the projects become the decorated fetched list; a failed fetch, which has no catch, leaves them; role, editor and toast are kept |
| ProjectListView.ProjectList.SetFilter | src/components/projectlist/ProjectList.jsx:94-127 | choosing "All" or one of the options as listed, 'In-Progress' included, sets the filter; everything else is kept |
| ProjectListView.ProjectList.SetSort | src/components/projectlist/ProjectList.jsx:131-140 | choosing a sort field sets it; everything else is kept |
| ProjectListView.ProjectList.HandleProjectUpdated | src/components/projectlist/ProjectList.jsx:72-82 | the project with the updated id is replaced by the decorated update, the editor closes and the update toast shows; the role, filter, sort and shown list are kept |
| ProjectListView.ProjectList.HandleDeleteProject | src/components/projectlist/ProjectList.jsx:52-65 | a successful delete refetches the list, and a failed refetch (not awaited, so not caught) keeps it; the toast shows `DeleteMessage` of the delete's outcome either way; role and editor are kept |
| ProjectListView.ProjectList.HandleEditProject | src/components/projectlist/ProjectList.jsx:67-70 | the project becomes the one edited and the editor opens |
| ProjectListView.ProjectList.HandleCancel | src/components/projectlist/ProjectList.jsx:89-92 | the editor closes with nothing selected |
| ProjectListView.ProjectList.HideToast | src/components/projectlist/ProjectList.jsx:173-177 | the toast's close or autohide hides it; the message and every other field are kept |
| CreateProjectForm.WithRemainingDays | src/components/createproject/CreateProject.jsx:59-70 | an empty end date leaves the draft as it is; otherwise only the remaining days change, to a non-negative count |
| CreateProjectForm.AddMember | src/components/createproject/CreateProject.jsx:80-89 | an empty selection or an existing member changes nothing; otherwise the first user with that id is appended and the selection cleared |
| CreateProjectForm.AddMemberKeepsIdsUnique | src/components/createproject/CreateProject.jsx:80-89 | adding never gives two members the same id |
| Members.RemoveMember | src/components/createproject/CreateProject.jsx:91-96 | exactly the members with other ids remain, with their multiplicities; the team form removes members by the same code |
| Members.RemoveMemberKeepsOrder | src/components/createproject/CreateProject.jsx:91-96 | removal keeps the remaining members in order: it distributes over concatenation and keeps a single member exactly when its id differs |
| CreateProjectForm.RemoveUndoesAdd | src/components/createproject/CreateProject.jsx:80-96 | removing a member just added restores the member list |
| CreateProjectForm.SubmitSucceeded | src/components/createproject/CreateProject.jsx:103-119 | an update succeeds only with status 200 and a create only with 201 |
| CreateProjectForm.CreateProject.constructor | src/components/createproject/CreateProject.jsx:7-25 | the form starts with the initial draft: status "Not Started", priority "Medium", budget 0 |
| CreateProjectForm.CreateProject.FetchUsers | src/components/createproject/CreateProject.jsx:49-57 | on success only the team members among the users are offered; a failure changes nothing; every other field is kept |
| CreateProjectForm.CreateProject.CalculateRemainingDays | src/components/createproject/CreateProject.jsx:59-70 | the draft becomes `WithRemainingDays` of the old draft; every other field is kept |
| CreateProjectForm.CreateProject.SelectMember | src/components/createproject/CreateProject.jsx:24 | the selection is set; every other field is kept |
| CreateProjectForm.CreateProject.HandleTeamMemberAdd | src/components/createproject/CreateProject.jsx:80-89 | members and selection become those `AddMember` computes; every other field is kept |
| CreateProjectForm.CreateProject.HandleTeamMemberRemove | src/components/createproject/CreateProject.jsx:91-96 | members become `RemoveMember` of the old members; every other field is kept |
| CreateProjectForm.CreateProject.HandleSubmit | src/components/createproject/CreateProject.jsx:98-146 | a success shows the notification for the operation and resets the draft with a blank budget; a failure shows the error and keeps the draft; submitting always ends |
| CreateProjectForm.CreateProject.ClearNotification | src/components/createproject/CreateProject.jsx:136-139 | the timer armed by a successful submit clears the notification; every other field is kept |
| CreateTeamForm.AvailableUsers | src/components/createteam/CreateTeam.jsx:117 | a user is available exactly when no member has its id, and keeps its multiplicity |
| CreateTeamForm.AvailableUsersKeepOrder | src/components/createteam/CreateTeam.jsx:117 | the available users keep the user list's order: the list distributes over concatenation and keeps a single user exactly when no member has its id |
| CreateTeamForm.AddMember | src/components/createteam/CreateTeam.jsx:62-73 | an empty selection, an existing member or an unknown id changes nothing; otherwise the first user with the id is appended and the selection cleared |
| CreateTeamForm.AddMemberKeepsIdsUnique | src/components/createteam/CreateTeam.jsx:62-73 | adding never gives two members the same id |
| CreateTeamForm.AddedUserLeavesAvailable | src/components/createteam/CreateTeam.jsx:62-73 | adding an available user makes it a member and removes it from the available users |
| CreateTeamForm.Payload | src/components/createteam/CreateTeam.jsx:87-90 | the payload keeps the team's fields and sends its members as ids, in order |
| CreateTeamForm.MergeName | src/components/createteam/CreateTeam.jsx:26-29 | a member takes the name of the first user with its id, and is otherwise kept as it was |
| CreateTeamForm.MergeNames | src/components/createteam/CreateTeam.jsx:26-29 | every member is merged, in order |
| CreateTeamForm.MergeNamesKeepsPayload | src/components/createteam/CreateTeam.jsx:22-32 | merging names never changes what is sent |
| CreateTeamForm.FormGate | src/components/createteam/CreateTeam.jsx:119-125 | the form shows exactly for a manager; loading shows exactly while no user is known |
| CreateTeamForm.CreateTeam.constructor | src/components/createteam/CreateTeam.jsx:6-15 | the form starts empty with no user |
| CreateTeamForm.CreateTeam.FetchUsers | src/components/createteam/CreateTeam.jsx:34-42 | on success the users are stored; a failure sets the users error; every other field is kept |
| CreateTeamForm.CreateTeam.FetchCurrentUser | src/components/createteam/CreateTeam.jsx:44-52 | on success the profile is stored; a failure sets the profile error; every other field is kept |
| CreateTeamForm.CreateTeam.LoadTeamToEdit | src/components/createteam/CreateTeam.jsx:22-32 | a team being edited is loaded with merged names once users exist; otherwise the draft is kept; every other field is kept |
| CreateTeamForm.CreateTeam.SelectMember | src/components/createteam/CreateTeam.jsx:14 | the selection is set; every other field is kept |
| CreateTeamForm.CreateTeam.HandleMemberAdd | src/components/createteam/CreateTeam.jsx:62-73 | members and selection become those `AddMember` computes; every other field is kept |
| CreateTeamForm.CreateTeam.HandleMemberRemove | src/components/createteam/CreateTeam.jsx:75-80 | members become `RemoveMember` of the old members; every other field is kept |
| CreateTeamForm.CreateTeam.HandleSubmit | src/components/createteam/CreateTeam.jsx:82-115 | sends `Payload` of the draft; a success shows the notification for the operation and empties the draft; a failure shows the error and keeps it; every other field is kept |
| CreateTeamForm.CreateTeam.ClearNotification | src/components/createteam/CreateTeam.jsx:108-110 | the timer armed by a successful submit clears the notification; every other field is kept |
| TeamListView.ManagerFlag | src/components/teamlist/TeamList.jsx:31-38 | a fetched profile sets the flag exactly when its role is manager; a failed fetch keeps the flag |
| TeamListView.UpdateAfterCreate | src/components/teamlist/TeamList.jsx:76-86 | updating a team just created under a fresh id replaces only that last entry |
| TeamListView.UpdateReplacesOne | src/components/teamlist/TeamList.jsx:82-86 | with unique ids, an update changes exactly the entry with its id, and an unknown id changes nothing; ids are kept |
| TeamListView.TeamList.constructor | src/components/teamlist/TeamList.jsx:7-15 | the view starts empty, closed and not a manager |
| TeamListView.TeamList.FetchTeams | src/components/teamlist/TeamList.jsx:22-29 | the fetched teams are stored; a failure keeps the list |
| TeamListView.TeamList.CheckUserRole | src/components/teamlist/TeamList.jsx:31-38 | the manager flag becomes `ManagerFlag` of the profile fetch |
| TeamListView.TeamList.HandleViewMembers | src/components/teamlist/TeamList.jsx:40-48 | a fetched team is selected and the modal opens; a failure changes nothing |
| TeamListView.TeamList.HandleCloseModal | src/components/teamlist/TeamList.jsx:50-53 | the modal closes with nothing selected |
| TeamListView.TeamList.HandleDeleteTeam | src/components/teamlist/TeamList.jsx:55-64 | a successful delete refetches and shows the deleted toast; a failure keeps the list and shows the error toast |
| TeamListView.TeamList.HandleCreateTeam | src/components/teamlist/TeamList.jsx:66-69 | the editor opens with no team |
| TeamListView.TeamList.HandleEditTeam | src/components/teamlist/TeamList.jsx:71-74 | the editor opens on the team |
| TeamListView.TeamList.HandleTeamCreated | src/components/teamlist/TeamList.jsx:76-80 | the new team goes last, the editor closes and the created toast shows; the manager flag, the selected team, the members modal and the team to edit are kept |
| TeamListView.TeamList.HandleTeamUpdated | src/components/teamlist/TeamList.jsx:82-86 | the team with the updated id is replaced, the editor closes and the updated toast shows; the manager flag, the selected team, the members modal and the team to edit are kept |
| TeamListView.TeamList.HideToast | src/components/teamlist/TeamList.jsx:171-175 | the toast's close or autohide hides it; the message and every other field are kept |
| TaskListView.ProjectTasks | src/components/tasklist/TaskList.jsx:37-40 | no selected project keeps every task; otherwise exactly the project's tasks are kept |
| TaskListView.VisibleTasksAreSelectedAndSorted | src/components/tasklist/TaskList.jsx:36-44 | the shown tasks are exactly the selected project's tasks that match the filter, each with its multiplicity, sorted by the chosen field and stable |
| TaskListView.VisibleTasks | src/components/tasklist/TaskList.jsx:36-44 | the shown tasks are a permutation of the selected project's tasks that pass the priority filter, sorted by the chosen field |
| TaskListView.NoSelectionShowsEverything | src/components/tasklist/TaskList.jsx:36-44 | with no project and no filter every task is shown |
| TaskListView.UserName | src/components/tasklist/TaskList.jsx:122-125 | an unknown user id shows "Unknown"; otherwise the name of the first user with the id |
| TaskListView.UserNameOfUnique | src/components/tasklist/TaskList.jsx:122-125 | with unique user ids, each user's id shows that user's name |
| TaskListView.EmptyMessage | src/components/tasklist/TaskList.jsx:197-201 | the "no match" message appears exactly when a project is selected and has tasks; otherwise "No tasks available" |
| TaskListView.EmptyMessageTellsWhy | src/components/tasklist/TaskList.jsx:197-201 | "No tasks available" means no filter could show anything; "no match" means clearing the filter would show tasks |
| TaskListView.FetchesUsers | src/components/tasklist/TaskList.jsx:23-29 | users are fetched exactly for a manager |
| TaskListView.TaskList.constructor | src/components/tasklist/TaskList.jsx:9-21 | the view starts empty, unfiltered and sorted by title |
| TaskListView.TaskList.ApplyFilters | src/components/tasklist/TaskList.jsx:36-44 | the shown list becomes `VisibleTasks` of the current state; nothing else changes |
| TaskListView.TaskList.LoadRole | src/components/tasklist/TaskList.jsx:31-34 | the role is read from the stored session; every other field is kept |
| TaskListView.TaskList.ShowNotification | src/components/tasklist/TaskList.jsx:99-102 | the toast shows the message and nothing else changes |
| TaskListView.TaskList.FetchTasks | src/components/tasklist/TaskList.jsx:46-54 | the fetched tasks are stored; a failure keeps them and shows the tasks error |
| TaskListView.TaskList.LoadData | src/components/tasklist/TaskList.jsx:23-74 | tasks and projects are stored when fetched; users are fetched only for a manager; the toast shows the error of the last failed fetch in call order (tasks, then projects, then users), so a users error wins over a projects error, which wins over a tasks error and is unchanged when none fails; filters, sort, selection and editor are kept |
| TaskListView.TaskList.SetFilter | src/components/tasklist/TaskList.jsx:14 | the filter is set; every other field is kept |
| TaskListView.TaskList.SetSort | src/components/tasklist/TaskList.jsx:15 | the sort field is set; every other field is kept |
| TaskListView.TaskList.SelectProject | src/components/tasklist/TaskList.jsx:16 | the selected project is set; every other field is kept |
| TaskListView.TaskList.HandleDeleteTask | src/components/tasklist/TaskList.jsx:76-85 | a successful delete shows the deleted toast, unless the refetch that lands after it fails; a failed delete keeps the tasks and shows the error; every other field is kept |
| TaskListView.TaskList.HandleEditTask | src/components/tasklist/TaskList.jsx:87-90 | the task becomes the one edited and the editor opens; every other field is kept |
| TaskListView.TaskList.HandleTaskUpdated | src/components/tasklist/TaskList.jsx:92-97 | the task with the updated id is replaced, the editor closes and the updated toast shows; every other field is kept |
| TaskListView.TaskList.HandleCancel | src/components/tasklist/TaskList.jsx:104-107 | the editor closes with nothing selected; every other field is kept |
| TaskListView.TaskList.HandleTaskCreated | src/components/tasklist/TaskList.jsx:109-113 | the editor closes and the tasks are refetched; the created toast shows unless the refetch fails; every other field is kept |
| TaskListView.TaskList.HideToast | src/components/tasklist/TaskList.jsx:204-208 | the toast's close or autohide hides it; the message and every other field are kept |
| CreateReportForm.Derived | src/components/createreport/CreateReport.jsx:75-76 | the derived pair is the rounded percentage and a remainder that adds back to the whole; with 0 <= part <= whole > 0 the percentage is within 0..100 and the remainder non-negative; a part over the whole leaves a negative remainder |
| CreateReportForm.WithTotalTasks | src/components/createreport/CreateReport.jsx:72-83 | stores the total and makes the progress fields agree with the counts; every other field is kept |
| CreateReportForm.WithCompletedTasks | src/components/createreport/CreateReport.jsx:91-102 | stores the completed count and makes the progress fields agree with the counts; every other field is kept |
| CreateReportForm.WithTotalBudget | src/components/createreport/CreateReport.jsx:240-251 | stores the total budget and makes the budget fields agree with the amounts; every other field is kept |
| CreateReportForm.WithSpentToDate | src/components/createreport/CreateReport.jsx:259-270 | stores the spent amount and makes the budget fields agree with the amounts; every other field is kept |
| CreateReportForm.ProgressInputsCommute | src/components/createreport/CreateReport.jsx:72-102 | entering total then completed gives the same report as the other order |
| CreateReportForm.BudgetInputsCommute | src/components/createreport/CreateReport.jsx:240-270 | entering total budget then spent gives the same report as the other order |
| CreateReportForm.InputsKeepTheOtherGroup | src/components/createreport/CreateReport.jsx:72-270 | a progress input keeps budget consistency and a budget input keeps progress consistency |
| CreateReportForm.EditedMilestone | src/components/createreport/CreateReport.jsx:187-215 | a milestone input changes only its own field; a date is stored as ISO midnight |
| CreateReportForm.EditedExpense | src/components/createreport/CreateReport.jsx:297-313 | an expense input changes only its own field |
| CreateReportForm.AddMilestone | src/components/createreport/CreateReport.jsx:226 | an empty milestone goes after the existing ones, which start as none; the rest of the report is kept |
| CreateReportForm.EditMilestone | src/components/createreport/CreateReport.jsx:187-215 | only milestone i changes; the others and the rest of the report are kept |
| CreateReportForm.RemoveMilestone | src/components/createreport/CreateReport.jsx:217-221 | milestone i is spliced out; the rest of the report is kept |
| CreateReportForm.AddExpense | src/components/createreport/CreateReport.jsx:324 | an empty expense (amount 0) goes after the existing ones |
| CreateReportForm.EditExpense | src/components/createreport/CreateReport.jsx:297-313 | only expense i changes; the others and the rest of the report are kept |
| CreateReportForm.RemoveExpense | src/components/createreport/CreateReport.jsx:315-319 | expense i is spliced out; the rest of the report is kept |
| CreateReportForm.RemoveMilestoneUndoesAdd | src/components/createreport/CreateReport.jsx:217-226 | removing the milestone just added restores the milestones |
| CreateReportForm.RemoveExpenseUndoesAdd | src/components/createreport/CreateReport.jsx:315-324 | removing the expense just added restores the expenses |
| CreateReportForm.RemoveAfterEdit | src/components/createreport/CreateReport.jsx:187-319 | editing an item and then removing it is the same as removing it |
| CreateReportForm.CreateReport.constructor | src/components/createreport/CreateReport.jsx:6-12 | the form starts with no type, an empty report and no message |
| CreateReportForm.CreateReport.FetchProjects | src/components/createreport/CreateReport.jsx:20-29 | the fetched projects are stored; a failure empties them and shows the prefixed error; every other field is kept |
| CreateReportForm.CreateReport.FetchCurrentUser | src/components/createreport/CreateReport.jsx:31-39 | the profile's username is stored; a failure shows the prefixed error; every other field is kept |
| CreateReportForm.CreateReport.UpdateCurrentDate | src/components/createreport/CreateReport.jsx:41-44 | only the report's generation date changes, to today |
| CreateReportForm.CreateReport.SetReportType | src/components/createreport/CreateReport.jsx:392 | the report type is set; every other field is kept |
| CreateReportForm.CreateReport.SelectProject | src/components/createreport/CreateReport.jsx:382 | the selected project is set; every other field is kept |
| CreateReportForm.CreateReport.HandleTotalTasks | src/components/createreport/CreateReport.jsx:72-83 | the report becomes `WithTotalTasks` of the old report; every other field is kept |
| CreateReportForm.CreateReport.HandleCompletedTasks | src/components/createreport/CreateReport.jsx:91-102 | the report becomes `WithCompletedTasks` of the old report; every other field is kept |
| CreateReportForm.CreateReport.HandleTotalBudget | src/components/createreport/CreateReport.jsx:240-251 | the report becomes `WithTotalBudget` of the old report; every other field is kept |
| CreateReportForm.CreateReport.HandleSpentToDate | src/components/createreport/CreateReport.jsx:259-270 | the report becomes `WithSpentToDate` of the old report; every other field is kept |
| CreateReportForm.CreateReport.HandleText | src/components/createreport/CreateReport.jsx:139-176 | a text input sets just its key; every other field is kept |
| CreateReportForm.CreateReport.HandleTotalCompleted | src/components/createreport/CreateReport.jsx:155 | the completed total is set; every other field is kept |
| CreateReportForm.CreateReport.HandleAddMilestone | src/components/createreport/CreateReport.jsx:226 | the report becomes `AddMilestone` of the old report; every other field is kept |
| CreateReportForm.CreateReport.HandleMilestoneEdit | src/components/createreport/CreateReport.jsx:187-215 | the report becomes `EditMilestone` of the old report; every other field is kept |
| CreateReportForm.CreateReport.HandleRemoveMilestone | src/components/createreport/CreateReport.jsx:217-221 | the report becomes `RemoveMilestone` of the old report; every other field is kept |
| CreateReportForm.CreateReport.HandleAddExpense | src/components/createreport/CreateReport.jsx:324 | the report becomes `AddExpense` of the old report; every other field is kept |
| CreateReportForm.CreateReport.HandleExpenseEdit | src/components/createreport/CreateReport.jsx:297-313 | the report becomes `EditExpense` of the old report; every other field is kept |
| CreateReportForm.CreateReport.HandleRemoveExpense | src/components/createreport/CreateReport.jsx:315-319 | the report becomes `RemoveExpense` of the old report; every other field is kept |
| CreateReportForm.CreateReport.HandleSubmit | src/components/createreport/CreateReport.jsx:46-59 | sends the selected project, type and report; a success shows the success message and resets the form to a fresh report dated today; a failure shows the prefixed error and keeps the form |
| HomePage.Distinct | src/pages/home/Home.jsx:37-43 | the chart labels are exactly the values that occur, without repetition |
| HomePage.FirstIndex | src/pages/home/Home.jsx:37-43 | the first position of a value holds it, and no earlier position does |
| HomePage.DistinctInFirstOccurrenceOrder | src/pages/home/Home.jsx:43 | labels come in the order in which their values first occur, as object keys do |
| HomePage.Counts | src/pages/home/Home.jsx:46 | each label's value is how often it occurs |
| HomePage.CountsSumToLength | src/pages/home/Home.jsx:37-46 | the histogram counts every element exactly once |
| HomePage.CountBy | src/pages/home/Home.jsx:37-46 | the `reduce` loop yields labels in first-occurrence order, without repetition, with their counts summing to the list's length |
| HomePage.Statuses | src/pages/home/Home.jsx:38 | one status per project, aligned |
| HomePage.Priorities | src/pages/home/Home.jsx:55 | one priority per task, aligned |
| HomePage.CreationMonths | src/pages/home/Home.jsx:73-74 | one creation month per project, aligned |
| HomePage.MonthLessIsStrictTotalOrder | src/pages/home/Home.jsx:79-83 | the month comparator orders months strictly and totally |
| HomePage.Decimal | src/pages/home/Home.jsx:74 | a number's text is all digits, with two or more from 10 on |
| HomePage.DecimalInjective | src/pages/home/Home.jsx:74 | different numbers have different texts |
| HomePage.MonthLabelInjective | src/pages/home/Home.jsx:74-75 | different months have different `month/year` keys, so counting by key is counting by month |
| HomePage.ChronologicalIsStrictlyIncreasing | src/pages/home/Home.jsx:79-83 | sorting the distinct months keeps them all and leaves them strictly increasing |
| HomePage.Recent | src/pages/home/Home.jsx:102 | the recent list is the first five projects, or all of them when fewer |
| HomePage.CompletedCount | src/pages/home/Home.jsx:116 | the completed count is how often "Completed" occurs among the statuses, at most the project count |
| HomePage.CompletedCountMatchesStatusChart | src/pages/home/Home.jsx:36-51 | the stats' completed count equals the status chart's "Completed" slice |
| HomePage.Home.constructor | src/pages/home/Home.jsx:10-14 | the page starts loading with no charts |
| HomePage.Home.ProcessProjectData | src/pages/home/Home.jsx:36-51 | the status chart is the status histogram, and its values sum to the project count |
| HomePage.Home.ProcessTaskData | src/pages/home/Home.jsx:53-69 | the priority chart is the priority histogram, and its values sum to the task count |
| HomePage.Home.ProcessProjectTrend | src/pages/home/Home.jsx:71-96 | the trend has every creation month once, in strictly increasing order, each with its count |
| HomePage.Home.FetchData | src/pages/home/Home.jsx:20-34 | with both lists fetched, the projects are stored and the charts are the status histogram, the priority histogram and the chronological creation-month histogram of the fetched lists; a failed fetch keeps all of them; loading ends either way |

## Left out

- Rendering: the JSX, routing, styling and the `FilterSort`, `Navbar` and other presentational components are not part of this model. Neither are `CreateTask`, `ReportList`, `Login` and the pages outside the files modelled here.
- Network, timers and concurrency: requests are answered by parameters, and one request is in flight at a time. The order in which independent `await`s complete is fixed as in the code's sequential reading. An un-awaited refetch is taken to land after the synchronous toast that follows it.
- Timers are explicit steps the caller invokes. Each step is a method:
  - the one-second notification interval is `NotificationProvider.Tick`;
  - the three-second `setTimeout` after a successful form submit is `ClearNotification` in the project and team forms;
  - the toast `onClose`/`autohide` is `HideToast` in the three list views.
  The delays themselves are not modelled. The body of `filterExpiredNotifications` is not part of this model; it is the `live` predicate.
- React effect timing: `filteredProjects` and `filteredTasks` are stale until `ApplyFilterSort` or `ApplyFilters` runs, and the effects are separate methods the caller invokes.
- Child callbacks (`onProjectCreated`, `onTeamUpdated` and the rest) are modelled on the parent's side, by the parent's handler.
- Floating point: `parseInt`, `parseFloat` and the numbers in reports are integers, and NaN (an emptied number input) is not modelled.
- Metrics.Percent: the percentage is computed exactly, while the source multiplies the double-precision quotient by 100 before `Math.round`. That product can fall just below an exact half and round down: 23 of 40 gives 57 in the source and 58 in the model, and 29 of 200 gives 14 against 15.
- HomePage.Home: the `toFixed(2)` completion rate is not modelled, nor the division by zero when there are no projects; `CompletedCount` is its numerator.
- Dates: parsing is a parameter, and project creation dates are (month, year) pairs. The two `new Date()` calls of one handler are one `now`. Years 0-99, which the JavaScript `Date` constructor maps to 1900-1999, are not modelled.
- HomePage.Home.ProcessProjectTrend: the trend is keyed by (month, year) instead of the `month/year` text. `MonthLabelInjective` shows that the two key the same buckets.
- HomePage.CountBy: the chart labels follow first occurrence. JavaScript lists integer-like object keys first, in numeric order; statuses and priorities are not integer-like, so this is not modelled.
- Text: `toLowerCase` is modelled for ASCII letters only. String order compares `char` values; the source compares UTF-16 code units, which differ only outside the basic multilingual plane.
- Api.Gateway.Send: a failure without a response (a network error) makes the source throw on `error.response.status`; this is not modelled, and every failure carries a status. A refresh reply without a token is not modelled either.
- Api: the endpoint wrappers `getProjects`, `createTeam` and the rest (src/services/api.js:45-101) are one line each. They are modelled only as `Gateway.Call` on a path.
- Auth.RegisterUser: an error without a 400 response is rethrown as is; the model keeps only its message.
- CreateProjectForm.AddMember: requires the selection to be a known user, as the select offers only those. For an unknown id the source appends `undefined`.
- CreateProjectForm.CreateProject: `handleChange`, the edit-load effect with its ISO date formatting, and `handleCancel`, which calls the parent or navigates, are not modelled.
- CreateTeamForm.CreateTeam: `handleChange` on the name and description is not modelled.
- ProjectListView.ProjectList: the fetched team list (`fetchTeamMembers`) is only passed to the child form, so it is not modelled.
- CreateReportForm.CreateReport: the free-text fields of the report are one `texts` map rather than separate properties, and the `|| ''` display fallbacks are not modelled.

## Findings

| source | as written | input that shows it | evidently intended | confidence | as-written member | corrected member |
|---|---|---|---|---|---|---|
| src/components/projectlist/ProjectList.jsx:94 | the status filter offers the value 'In-Progress' | any project list whose in-progress projects are stored as 'In Progress' (the value of src/components/createproject/CreateProject.jsx:222); choosing 'In-Progress' shows nothing | the filter value spelled 'In Progress', as stored | high, not executed | ProjectListView.AsWrittenInProgressMatchesNothing | ProjectListView.EveryStatusSelectable |

The view class keeps the menu as written: `ProjectList.SetFilter` accepts 'In-Progress', and the next `ApplyFilterSort` then shows the empty list that `AsWrittenInProgressMatchesNothing` describes. `Filters` with the corrected spelling is the menu `EveryStatusSelectable` is proved against.
