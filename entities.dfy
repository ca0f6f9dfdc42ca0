/**
 * The backend records the dashboard reads, restricted to the fields its logic touches.
 * A missing `_id` is the empty string (both compare equal to themselves, as
 * `undefined === undefined` does).
 */
module Entities {
  import opened Wrappers

  /** The local calendar month (1..12) and year of a timestamp. */
  datatype MonthYear = MonthYear(month: int, year: int)

  /** A user, a team member, or the `user` part of a stored session. */
  datatype User = User(id: string, name: string, role: string)

  /**
   * A project as listed. `endDate` is the ISO text the backend sends (it is what sorting by
   * end date compares); `remainingDays` and `isCompleted` are absent on fetched records and
   * present once the project list has decorated them.
   */
  datatype Project = Project(
    id: string,
    name: string,
    status: string,
    endDate: string,
    createdAt: MonthYear,
    remainingDays: Option<int>,
    isCompleted: Option<bool>)

  datatype Task = Task(
    id: string,
    title: string,
    priority: string,
    dueDate: string,
    project: string,
    assignedTo: string)

  datatype Team = Team(id: string, name: string, description: string, members: seq<User>)

  function UserId(u: User): string { u.id }
  function ProjectId(p: Project): string { p.id }
  function TaskId(t: Task): string { t.id }
  function TeamId(t: Team): string { t.id }

  /** The roles the backend issues. */
  const Manager := "manager"
  const TeamMember := "team_member"
}
