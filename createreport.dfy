/**
 * src/components/createreport/CreateReport.jsx: the report form. Its data is one record
 * whose derived fields (progress and remaining tasks, utilisation and remaining budget)
 * are recomputed whenever one of their inputs is edited, plus positional lists of
 * milestones and major expenses that can be appended to, edited at an index and spliced.
 *
 * Numbers typed into the form are taken as integers (`parseInt`/`parseFloat` of a
 * well-formed entry); a field absent from the record is None, read as 0 by `x || 0`.
 */
module CreateReportForm {
  import opened Wrappers
  import opened Lists
  import opened Entities
  import opened Metrics

  datatype Milestone = Milestone(title: string, date: string, status: string)
  datatype Expense = Expense(category: string, amount: int)

  /** What a milestone input writes: one field, the date as an ISO midnight timestamp. */
  datatype MilestoneEdit = NewTitle(title: string) | NewDate(day: string) | NewStatus(status: string)
  datatype ExpenseEdit = NewCategory(category: string) | NewAmount(amount: int)

  /**
   * `reportData`. The free-text fields of the task-completion, timeline and task-update
   * report types (task name, dates, status) are the map `texts`, keyed by field name.
   */
  datatype ReportData = ReportData(
    generatedAt: Option<string>,
    totalTasks: Option<int>,
    completedTasks: Option<int>,
    progressPercentage: Option<int>,
    remainingTasks: Option<int>,
    totalBudget: Option<int>,
    spentToDate: Option<int>,
    remainingBudget: Option<int>,
    utilizationPercentage: Option<int>,
    totalCompleted: Option<int>,
    texts: map<string, string>,
    milestones: Option<seq<Milestone>>,
    majorExpenses: Option<seq<Expense>>)

  /** `{}`. */
  const EmptyReport := ReportData(None, None, None, None, None, None, None, None, None, None, map[], None, None)

  const EmptyMilestone := Milestone("", "", "")
  const EmptyExpense := Expense("", 0)
  const MidnightSuffix := "T00:00:00.000Z"
  const CreatedMessage := "Report created successfully"
  const CreateErrorPrefix := "Error creating report: "
  const ProjectsErrorPrefix := "Error fetching projects: "
  const UserErrorPrefix := "Error fetching current user: "

  /** `x || 0` on a stored number. */
  function OrZero(x: Option<int>): int { x.GetOr(0) }

  function Milestones(d: ReportData): seq<Milestone> { d.milestones.GetOr([]) }
  function Expenses(d: ReportData): seq<Expense> { d.majorExpenses.GetOr([]) }

  /**
   * The derived pair of a (part, whole) input: the rounded percentage of the whole the part
   * is, and what remains of the whole, which goes negative when the part exceeds it.
   */
  function Derived(part: int, whole: int): (r: (int, int))
    ensures r.0 == Percent(part, whole)
    ensures r.1 + part == whole
    ensures 0 <= part <= whole && whole > 0 ==> 0 <= r.0 <= 100 && r.1 >= 0
    ensures part > whole ==> r.1 < 0
  {
    if 0 <= part <= whole && whole > 0 then
      PercentBounds(part, whole);
      (Percent(part, whole), whole - part)
    else (Percent(part, whole), whole - part)
  }

  /** The progress fields agree with the stored task counts. */
  predicate ProgressConsistent(d: ReportData) {
    var (percent, remaining) := Derived(OrZero(d.completedTasks), OrZero(d.totalTasks));
    d.progressPercentage == Some(percent) && d.remainingTasks == Some(remaining)
  }

  /** The budget fields agree with the stored amounts. */
  predicate BudgetConsistent(d: ReportData) {
    var (percent, remaining) := Derived(OrZero(d.spentToDate), OrZero(d.totalBudget));
    d.utilizationPercentage == Some(percent) && d.remainingBudget == Some(remaining)
  }

  /** The total-tasks input: stores the total and recomputes the progress fields, nothing else. */
  function WithTotalTasks(d: ReportData, total: int): (r: ReportData)
    ensures r.totalTasks == Some(total) && ProgressConsistent(r)
    ensures r.(totalTasks := d.totalTasks, progressPercentage := d.progressPercentage,
               remainingTasks := d.remainingTasks) == d
  {
    var (percent, remaining) := Derived(OrZero(d.completedTasks), total);
    d.(totalTasks := Some(total), progressPercentage := Some(percent), remainingTasks := Some(remaining))
  }

  /** The completed-tasks input, reading the stored total (0 when absent). */
  function WithCompletedTasks(d: ReportData, completed: int): (r: ReportData)
    ensures r.completedTasks == Some(completed) && ProgressConsistent(r)
    ensures r.(completedTasks := d.completedTasks, progressPercentage := d.progressPercentage,
               remainingTasks := d.remainingTasks) == d
  {
    var (percent, remaining) := Derived(completed, OrZero(d.totalTasks));
    d.(completedTasks := Some(completed), progressPercentage := Some(percent), remainingTasks := Some(remaining))
  }

  /** The total-budget input. */
  function WithTotalBudget(d: ReportData, total: int): (r: ReportData)
    ensures r.totalBudget == Some(total) && BudgetConsistent(r)
    ensures r.(totalBudget := d.totalBudget, utilizationPercentage := d.utilizationPercentage,
               remainingBudget := d.remainingBudget) == d
  {
    var (percent, remaining) := Derived(OrZero(d.spentToDate), total);
    d.(totalBudget := Some(total), utilizationPercentage := Some(percent), remainingBudget := Some(remaining))
  }

  /** The spent-to-date input, reading the stored total budget (0 when absent). */
  function WithSpentToDate(d: ReportData, spent: int): (r: ReportData)
    ensures r.spentToDate == Some(spent) && BudgetConsistent(r)
    ensures r.(spentToDate := d.spentToDate, utilizationPercentage := d.utilizationPercentage,
               remainingBudget := d.remainingBudget) == d
  {
    var (percent, remaining) := Derived(spent, OrZero(d.totalBudget));
    d.(spentToDate := Some(spent), utilizationPercentage := Some(percent), remainingBudget := Some(remaining))
  }

  /**
   * The derived fields depend only on the last values entered: entering the total then the
   * completed count gives the same record as the other order.
   */
  lemma ProgressInputsCommute(d: ReportData, total: int, completed: int)
    ensures WithCompletedTasks(WithTotalTasks(d, total), completed)
         == WithTotalTasks(WithCompletedTasks(d, completed), total)
  {
    var a := WithCompletedTasks(WithTotalTasks(d, total), completed);
    var b := WithTotalTasks(WithCompletedTasks(d, completed), total);
    assert ProgressConsistent(a) && ProgressConsistent(b);
  }

  lemma BudgetInputsCommute(d: ReportData, total: int, spent: int)
    ensures WithSpentToDate(WithTotalBudget(d, total), spent)
         == WithTotalBudget(WithSpentToDate(d, spent), total)
  {
    var a := WithSpentToDate(WithTotalBudget(d, total), spent);
    var b := WithTotalBudget(WithSpentToDate(d, spent), total);
    assert BudgetConsistent(a) && BudgetConsistent(b);
  }

  /** A progress input leaves the budget fields, and so their consistency, untouched; and vice versa. */
  lemma InputsKeepTheOtherGroup(d: ReportData, n: int)
    ensures BudgetConsistent(d) ==> BudgetConsistent(WithTotalTasks(d, n)) && BudgetConsistent(WithCompletedTasks(d, n))
    ensures ProgressConsistent(d) ==> ProgressConsistent(WithTotalBudget(d, n)) && ProgressConsistent(WithSpentToDate(d, n))
  {
    var t, c := WithTotalTasks(d, n), WithCompletedTasks(d, n);
    assert t.spentToDate == d.spentToDate && t.totalBudget == d.totalBudget;
    assert c.spentToDate == d.spentToDate && c.totalBudget == d.totalBudget;
    var b, s := WithTotalBudget(d, n), WithSpentToDate(d, n);
    assert b.completedTasks == d.completedTasks && b.totalTasks == d.totalTasks;
    assert s.completedTasks == d.completedTasks && s.totalTasks == d.totalTasks;
  }

  /** A milestone input applied to one milestone. */
  function EditedMilestone(m: Milestone, e: MilestoneEdit): (r: Milestone)
    ensures e.NewTitle? ==> r == m.(title := e.title)
    ensures e.NewDate? ==> r == m.(date := e.day + MidnightSuffix)
    ensures e.NewStatus? ==> r == m.(status := e.status)
  {
    match e
    case NewTitle(t) => m.(title := t)
    case NewDate(day) => m.(date := day + MidnightSuffix)
    case NewStatus(s) => m.(status := s)
  }

  function EditedExpense(x: Expense, e: ExpenseEdit): (r: Expense)
    ensures e.NewCategory? ==> r == x.(category := e.category)
    ensures e.NewAmount? ==> r == x.(amount := e.amount)
  {
    match e
    case NewCategory(c) => x.(category := c)
    case NewAmount(a) => x.(amount := a)
  }

  /** "Add Milestone": an empty milestone after the existing ones (the list starts absent). */
  function AddMilestone(d: ReportData): (r: ReportData)
    ensures Milestones(r) == Milestones(d) + [EmptyMilestone]
    ensures r.(milestones := d.milestones) == d
  {
    d.(milestones := Some(Milestones(d) + [EmptyMilestone]))
  }

  /** A milestone input at index i: only that milestone changes. */
  function EditMilestone(d: ReportData, i: nat, e: MilestoneEdit): (r: ReportData)
    requires i < |Milestones(d)|
    ensures |Milestones(r)| == |Milestones(d)|
    ensures Milestones(r)[i] == EditedMilestone(Milestones(d)[i], e)
    ensures forall j :: 0 <= j < |Milestones(d)| && j != i ==> Milestones(r)[j] == Milestones(d)[j]
    ensures r.(milestones := d.milestones) == d
  {
    var ms := Milestones(d);
    d.(milestones := Some(ms[i := EditedMilestone(ms[i], e)]))
  }

  /** "Remove" on milestone i: later milestones move down one place. */
  function RemoveMilestone(d: ReportData, i: nat): (r: ReportData)
    requires i < |Milestones(d)|
    ensures Milestones(r) == RemoveAt(Milestones(d), i)
    ensures r.(milestones := d.milestones) == d
  {
    d.(milestones := Some(RemoveAt(Milestones(d), i)))
  }

  function AddExpense(d: ReportData): (r: ReportData)
    ensures Expenses(r) == Expenses(d) + [EmptyExpense]
    ensures r.(majorExpenses := d.majorExpenses) == d
  {
    d.(majorExpenses := Some(Expenses(d) + [EmptyExpense]))
  }

  function EditExpense(d: ReportData, i: nat, e: ExpenseEdit): (r: ReportData)
    requires i < |Expenses(d)|
    ensures |Expenses(r)| == |Expenses(d)|
    ensures Expenses(r)[i] == EditedExpense(Expenses(d)[i], e)
    ensures forall j :: 0 <= j < |Expenses(d)| && j != i ==> Expenses(r)[j] == Expenses(d)[j]
    ensures r.(majorExpenses := d.majorExpenses) == d
  {
    var xs := Expenses(d);
    d.(majorExpenses := Some(xs[i := EditedExpense(xs[i], e)]))
  }

  function RemoveExpense(d: ReportData, i: nat): (r: ReportData)
    requires i < |Expenses(d)|
    ensures Expenses(r) == RemoveAt(Expenses(d), i)
    ensures r.(majorExpenses := d.majorExpenses) == d
  {
    d.(majorExpenses := Some(RemoveAt(Expenses(d), i)))
  }

  /** Removing the milestone just added gives back the milestones as they were. */
  lemma RemoveMilestoneUndoesAdd(d: ReportData)
    ensures RemoveMilestone(AddMilestone(d), |Milestones(d)|) == d.(milestones := Some(Milestones(d)))
  {
    RemoveAtUndoesAppend(Milestones(d), EmptyMilestone);
  }

  lemma RemoveExpenseUndoesAdd(d: ReportData)
    ensures RemoveExpense(AddExpense(d), |Expenses(d)|) == d.(majorExpenses := Some(Expenses(d)))
  {
    RemoveAtUndoesAppend(Expenses(d), EmptyExpense);
  }

  /** Editing an item and then removing it is the same as removing it. */
  lemma RemoveAfterEdit(d: ReportData, i: nat, m: MilestoneEdit, x: ExpenseEdit)
    requires i < |Milestones(d)| && i < |Expenses(d)|
    ensures RemoveMilestone(EditMilestone(d, i, m), i) == RemoveMilestone(d, i)
    ensures RemoveExpense(EditExpense(d, i, x), i) == RemoveExpense(d, i)
  {
    var ms, xs := Milestones(d), Expenses(d);
    RemoveAtAfterUpdate(ms, i, EditedMilestone(ms[i], m));
    RemoveAtAfterUpdate(xs, i, EditedExpense(xs[i], x));
  }

  /** What `handleSubmit` posts. */
  datatype ReportRequest = ReportRequest(projectId: string, reportType: string, data: ReportData)

  class CreateReport {
    var reportType: string
    var reportData: ReportData
    var message: string
    var projects: seq<Project>
    var selectedProjectId: string
    var currentUser: string

    constructor()
      ensures reportType == "" && reportData == EmptyReport && message == ""
      ensures projects == [] && selectedProjectId == "" && currentUser == ""
    {
      reportType := "";
      reportData := EmptyReport;
      message := "";
      projects := [];
      selectedProjectId := "";
      currentUser := "";
    }

    /** `fetchProjects`: the projects, or an empty list and the error's message. */
    method FetchProjects(fetched: Result<seq<Project>, string>)
      modifies this
      ensures fetched.Ok? ==> projects == fetched.value && message == old(message)
      ensures fetched.Err? ==> projects == [] && message == ProjectsErrorPrefix + fetched.error
      ensures reportData == old(reportData) && reportType == old(reportType)
      ensures selectedProjectId == old(selectedProjectId) && currentUser == old(currentUser)
    {
      match fetched {
        case Ok(ps) =>
          projects := ps;
        case Err(e) =>
          message := ProjectsErrorPrefix + e;
          projects := [];
      }
    }

    /** `fetchCurrentUser`: the profile's username, or the error's message. */
    method FetchCurrentUser(fetched: Result<string, string>)
      modifies this
      ensures fetched.Ok? ==> currentUser == fetched.value && message == old(message)
      ensures fetched.Err? ==> currentUser == old(currentUser) && message == UserErrorPrefix + fetched.error
      ensures reportData == old(reportData) && projects == old(projects)
      ensures reportType == old(reportType) && selectedProjectId == old(selectedProjectId)
    {
      match fetched {
        case Ok(name) =>
          currentUser := name;
        case Err(e) =>
          message := UserErrorPrefix + e;
      }
    }

    /** `updateCurrentDate` with today's date as `YYYY-MM-DD`. */
    method UpdateCurrentDate(today: string)
      modifies this
      ensures reportData == old(reportData).(generatedAt := Some(today))
      ensures reportType == old(reportType) && message == old(message) && selectedProjectId == old(selectedProjectId)
      ensures projects == old(projects) && currentUser == old(currentUser)
    {
      reportData := reportData.(generatedAt := Some(today));
    }

    method SetReportType(t: string)
      modifies this
      ensures reportType == t && reportData == old(reportData) && selectedProjectId == old(selectedProjectId)
      ensures message == old(message) && projects == old(projects) && currentUser == old(currentUser)
    {
      reportType := t;
    }

    method SelectProject(id: string)
      modifies this
      ensures selectedProjectId == id && reportData == old(reportData) && reportType == old(reportType)
      ensures message == old(message) && projects == old(projects) && currentUser == old(currentUser)
    {
      selectedProjectId := id;
    }

    method HandleTotalTasks(total: int)
      modifies this
      ensures reportData == WithTotalTasks(old(reportData), total)
      ensures reportType == old(reportType) && message == old(message)
      ensures projects == old(projects) && selectedProjectId == old(selectedProjectId) && currentUser == old(currentUser)
    {
      var completed := OrZero(reportData.completedTasks);
      var percent := if total > 0 then Percent(completed, total) else 0;
      var remaining := total - completed;
      reportData := reportData.(totalTasks := Some(total), progressPercentage := Some(percent),
                                remainingTasks := Some(remaining));
    }

    method HandleCompletedTasks(completed: int)
      modifies this
      ensures reportData == WithCompletedTasks(old(reportData), completed)
      ensures reportType == old(reportType) && message == old(message)
      ensures projects == old(projects) && selectedProjectId == old(selectedProjectId) && currentUser == old(currentUser)
    {
      var total := OrZero(reportData.totalTasks);
      var percent := if total > 0 then Percent(completed, total) else 0;
      var remaining := total - completed;
      reportData := reportData.(completedTasks := Some(completed), progressPercentage := Some(percent),
                                remainingTasks := Some(remaining));
    }

    method HandleTotalBudget(total: int)
      modifies this
      ensures reportData == WithTotalBudget(old(reportData), total)
      ensures reportType == old(reportType) && message == old(message)
      ensures projects == old(projects) && selectedProjectId == old(selectedProjectId) && currentUser == old(currentUser)
    {
      var spent := OrZero(reportData.spentToDate);
      var remaining := total - spent;
      var percent := if total > 0 then Percent(spent, total) else 0;
      reportData := reportData.(totalBudget := Some(total), remainingBudget := Some(remaining),
                                utilizationPercentage := Some(percent));
    }

    method HandleSpentToDate(spent: int)
      modifies this
      ensures reportData == WithSpentToDate(old(reportData), spent)
      ensures reportType == old(reportType) && message == old(message)
      ensures projects == old(projects) && selectedProjectId == old(selectedProjectId) && currentUser == old(currentUser)
    {
      var total := OrZero(reportData.totalBudget);
      var remaining := total - spent;
      var percent := if total > 0 then Percent(spent, total) else 0;
      reportData := reportData.(spentToDate := Some(spent), remainingBudget := Some(remaining),
                                utilizationPercentage := Some(percent));
    }

    /** A plain text input (task name, dates, status): that one key is set. */
    method HandleText(key: string, value: string)
      modifies this
      ensures reportData == old(reportData).(texts := old(reportData.texts)[key := value])
      ensures reportType == old(reportType) && message == old(message)
      ensures projects == old(projects) && selectedProjectId == old(selectedProjectId) && currentUser == old(currentUser)
    {
      reportData := reportData.(texts := reportData.texts[key := value]);
    }

    method HandleTotalCompleted(n: int)
      modifies this
      ensures reportData == old(reportData).(totalCompleted := Some(n))
      ensures reportType == old(reportType) && message == old(message)
      ensures projects == old(projects) && selectedProjectId == old(selectedProjectId) && currentUser == old(currentUser)
    {
      reportData := reportData.(totalCompleted := Some(n));
    }

    method HandleAddMilestone()
      modifies this
      ensures reportData == AddMilestone(old(reportData))
      ensures reportType == old(reportType) && message == old(message)
      ensures projects == old(projects) && selectedProjectId == old(selectedProjectId) && currentUser == old(currentUser)
    {
      reportData := reportData.(milestones := Some(Milestones(reportData) + [EmptyMilestone]));
    }

    /** A milestone input: copy the list, overwrite element i, store the copy. */
    method HandleMilestoneEdit(i: nat, e: MilestoneEdit)
      requires i < |Milestones(reportData)|
      modifies this
      ensures reportData == EditMilestone(old(reportData), i, e)
      ensures reportType == old(reportType) && message == old(message)
      ensures projects == old(projects) && selectedProjectId == old(selectedProjectId) && currentUser == old(currentUser)
    {
      var newMilestones := Milestones(reportData);
      newMilestones := newMilestones[i := EditedMilestone(newMilestones[i], e)];
      reportData := reportData.(milestones := Some(newMilestones));
    }

    /** A milestone's "Remove": copy the list, splice element i out, store the copy. */
    method HandleRemoveMilestone(i: nat)
      requires i < |Milestones(reportData)|
      modifies this
      ensures reportData == RemoveMilestone(old(reportData), i)
      ensures reportType == old(reportType) && message == old(message)
      ensures projects == old(projects) && selectedProjectId == old(selectedProjectId) && currentUser == old(currentUser)
    {
      var newMilestones := Milestones(reportData);
      newMilestones := newMilestones[..i] + newMilestones[i + 1..];
      reportData := reportData.(milestones := Some(newMilestones));
    }

    method HandleAddExpense()
      modifies this
      ensures reportData == AddExpense(old(reportData))
      ensures reportType == old(reportType) && message == old(message)
      ensures projects == old(projects) && selectedProjectId == old(selectedProjectId) && currentUser == old(currentUser)
    {
      reportData := reportData.(majorExpenses := Some(Expenses(reportData) + [EmptyExpense]));
    }

    method HandleExpenseEdit(i: nat, e: ExpenseEdit)
      requires i < |Expenses(reportData)|
      modifies this
      ensures reportData == EditExpense(old(reportData), i, e)
      ensures reportType == old(reportType) && message == old(message)
      ensures projects == old(projects) && selectedProjectId == old(selectedProjectId) && currentUser == old(currentUser)
    {
      var newExpenses := Expenses(reportData);
      newExpenses := newExpenses[i := EditedExpense(newExpenses[i], e)];
      reportData := reportData.(majorExpenses := Some(newExpenses));
    }

    method HandleRemoveExpense(i: nat)
      requires i < |Expenses(reportData)|
      modifies this
      ensures reportData == RemoveExpense(old(reportData), i)
      ensures reportType == old(reportType) && message == old(message)
      ensures projects == old(projects) && selectedProjectId == old(selectedProjectId) && currentUser == old(currentUser)
    {
      var newExpenses := Expenses(reportData);
      newExpenses := newExpenses[..i] + newExpenses[i + 1..];
      reportData := reportData.(majorExpenses := Some(newExpenses));
    }

    /**
     * `handleSubmit`, given the create call's error message (None when it succeeds). It posts
     * the selected project, the type and the data; success clears the form down to today's
     * date, failure keeps everything and shows the error.
     */
    method HandleSubmit(failure: Option<string>, today: string) returns (sent: ReportRequest)
      modifies this
      ensures sent == ReportRequest(old(selectedProjectId), old(reportType), old(reportData))
      ensures failure.None? ==>
                && message == CreatedMessage && reportType == "" && selectedProjectId == ""
                && reportData == EmptyReport.(generatedAt := Some(today))
      ensures failure.Some? ==>
                && message == CreateErrorPrefix + failure.value && reportType == old(reportType)
                && selectedProjectId == old(selectedProjectId) && reportData == old(reportData)
      ensures projects == old(projects) && currentUser == old(currentUser)
    {
      message := "";
      sent := ReportRequest(selectedProjectId, reportType, reportData);
      if failure.None? {
        message := CreatedMessage;
        reportType := "";
        reportData := EmptyReport;
        selectedProjectId := "";
        UpdateCurrentDate(today);
      } else {
        message := CreateErrorPrefix + failure.value;
      }
    }
  }
}
