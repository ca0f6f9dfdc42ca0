/**
 * src/components/createproject/CreateProject.jsx: the create/edit project form. It keeps
 * a project draft with a list of team members, shows the days remaining until the end
 * date, and on submit accepts only the status code the operation promises.
 */
module CreateProjectForm {
  import opened Wrappers
  import opened Lists
  import opened Entities
  import opened Members
  import opened Metrics

  /** The budget field: the number 0 it starts with, or the empty text the reset leaves. */
  datatype Budget = Amount(value: int) | Blank

  datatype ProjectDraft = ProjectDraft(
    name: string,
    description: string,
    startDate: string,
    endDate: string,
    status: string,
    priorityLevel: string,
    budget: Budget,
    fileUpload: string,
    riskAssessment: string,
    manager: string,
    teamMembers: seq<User>,
    remainingDays: Option<int>)

  /** The draft the form starts with. */
  const InitialDraft := ProjectDraft("", "", "", "", "Not Started", "Medium", Amount(0), "", "", "", [], None)

  /** The draft a successful submit leaves: the initial one with the budget blank. */
  const ResetDraft := InitialDraft.(budget := Blank)

  const UpdatedNotification := "Project updated successfully!"
  const CreatedNotification := "Project created successfully!"
  const SubmitErrorMessage := "Failed to create/update project. Please check your permissions and try again."

  /**
   * `calculateRemainingDays`: with an end date, the days remaining from now (0 when past
   * or unparsable); with none, the draft is left as it is.
   */
  function WithRemainingDays(d: ProjectDraft, now: int, parse: string -> Option<int>): (r: ProjectDraft)
    ensures d.endDate == "" ==> r == d
    ensures d.endDate != "" ==> r == d.(remainingDays := Some(RemainingDaysOf(parse(d.endDate), now)))
    ensures r.remainingDays.Some? && r.remainingDays != d.remainingDays ==> r.remainingDays.value >= 0
  {
    if d.endDate != "" then d.(remainingDays := Some(RemainingDaysOf(parse(d.endDate), now))) else d
  }

  /**
   * `handleTeamMemberAdd` on the members and the selection: nothing happens for an empty
   * selection or one already a member; otherwise the first user with the selected id is
   * appended and the selection cleared. The selection comes from a select listing `allUsers`.
   */
  function AddMember(members: seq<User>, selected: string, allUsers: seq<User>): (r: (seq<User>, string))
    requires selected == "" || AnyMatch(allUsers, HasId(selected))
    ensures selected == "" || AnyMatch(members, HasId(selected)) ==> r == (members, selected)
    ensures selected != "" && !AnyMatch(members, HasId(selected)) ==>
              && r == (members + [Find(allUsers, HasId(selected)).value], "")
              && r.0[|members|].id == selected && r.0[|members|] in allUsers
  {
    if selected != "" && !AnyMatch(members, HasId(selected)) then
      match Find(allUsers, HasId(selected))
      case Some(u) => (members + [u], "")
      case None => (members, selected)
    else (members, selected)
  }

  /** Adding never gives two members the same id. */
  lemma AddMemberKeepsIdsUnique(members: seq<User>, selected: string, allUsers: seq<User>)
    requires selected == "" || AnyMatch(allUsers, HasId(selected))
    requires UniqueIds(members, UserId)
    ensures UniqueIds(AddMember(members, selected, allUsers).0, UserId)
  {
    var r := AddMember(members, selected, allUsers).0;
    if r != members {
      forall i, j | 0 <= i < j < |r|
        ensures UserId(r[i]) != UserId(r[j])
      {
        if j == |members| {
          assert r[i] == members[i];
          assert !HasId(selected)(members[i]);
        } else {
          assert r[i] == members[i] && r[j] == members[j];
        }
      }
    }
  }

  /** Removing a member just added under a fresh id restores the members. */
  lemma RemoveUndoesAdd(members: seq<User>, selected: string, allUsers: seq<User>)
    requires selected != "" && AnyMatch(allUsers, HasId(selected))
    requires !AnyMatch(members, HasId(selected))
    ensures RemoveMember(AddMember(members, selected, allUsers).0, selected) == members
  {
    var u := AddMember(members, selected, allUsers).0[|members|];
    assert AddMember(members, selected, allUsers).0 == members + [u];
    FilterAppend(members, [u], IdIsNot(selected));
    forall x | x in members ensures IdIsNot(selected)(x) {
      var i :| 0 <= i < |members| && members[i] == x;
      assert !HasId(selected)(members[i]);
    }
    FilterKeepsAll(members, IdIsNot(selected));
    assert Filter([u], IdIsNot(selected)) == [];
  }

  /** An update succeeds only with 200 and a create only with 201; any other status is a failure. */
  function SubmitSucceeded(editing: bool, status: Option<int>): (ok: bool)
    ensures ok <==> status == Some(if editing then 200 else 201)
  {
    match status
    case None => false
    case Some(s) => if editing then s == 200 else s == 201
  }

  /** The form's state fields. */
  class CreateProject {
    var projectData: ProjectDraft
    var allUsers: seq<User>
    var selectedMember: string
    var isSubmitting: bool
    var error: Option<string>
    var notification: Option<string>

    constructor()
      ensures projectData == InitialDraft && allUsers == [] && selectedMember == ""
      ensures !isSubmitting && error == None && notification == None
    {
      projectData := InitialDraft;
      allUsers := [];
      selectedMember := "";
      isSubmitting := false;
      error := None;
      notification := None;
    }

    /** `fetchUsers`: on success the team members among the users; a failure changes nothing. */
    method FetchUsers(fetched: Option<seq<User>>)
      modifies this
      ensures fetched.Some? ==> allUsers == Filter(fetched.value, (u: User) => u.role == TeamMember)
      ensures fetched.None? ==> allUsers == old(allUsers)
      ensures projectData == old(projectData) && selectedMember == old(selectedMember)
      ensures isSubmitting == old(isSubmitting) && error == old(error) && notification == old(notification)
    {
      if fetched.Some? {
        allUsers := Filter(fetched.value, (u: User) => u.role == TeamMember);
      }
    }

    /** The effect on `projectData.endDate`. */
    method CalculateRemainingDays(now: int, parse: string -> Option<int>)
      modifies this
      ensures projectData == WithRemainingDays(old(projectData), now, parse)
      ensures allUsers == old(allUsers) && selectedMember == old(selectedMember)
      ensures isSubmitting == old(isSubmitting) && error == old(error) && notification == old(notification)
    {
      if projectData.endDate != "" {
        projectData := projectData.(remainingDays := Some(RemainingDaysOf(parse(projectData.endDate), now)));
      }
    }

    method SelectMember(id: string)
      requires id == "" || AnyMatch(allUsers, HasId(id))
      modifies this
      ensures selectedMember == id && projectData == old(projectData) && allUsers == old(allUsers)
      ensures isSubmitting == old(isSubmitting) && error == old(error) && notification == old(notification)
    {
      selectedMember := id;
    }

    method HandleTeamMemberAdd()
      requires selectedMember == "" || AnyMatch(allUsers, HasId(selectedMember))
      modifies this
      ensures var r := AddMember(old(projectData.teamMembers), old(selectedMember), old(allUsers));
              projectData == old(projectData).(teamMembers := r.0) && selectedMember == r.1
      ensures allUsers == old(allUsers)
      ensures isSubmitting == old(isSubmitting) && error == old(error) && notification == old(notification)
    {
      var r := AddMember(projectData.teamMembers, selectedMember, allUsers);
      projectData := projectData.(teamMembers := r.0);
      selectedMember := r.1;
    }

    method HandleTeamMemberRemove(id: string)
      modifies this
      ensures projectData == old(projectData).(teamMembers := RemoveMember(old(projectData.teamMembers), id))
      ensures allUsers == old(allUsers) && selectedMember == old(selectedMember)
      ensures isSubmitting == old(isSubmitting) && error == old(error) && notification == old(notification)
    {
      projectData := projectData.(teamMembers := RemoveMember(projectData.teamMembers, id));
    }

    /**
     * `handleSubmit` given whether a project is being edited and the response status
     * (None when the request was rejected). Success resets the draft and notifies; any
     * failure keeps the draft and shows the error. The form is no longer submitting.
     */
    method HandleSubmit(editing: bool, status: Option<int>)
      modifies this
      ensures SubmitSucceeded(editing, status) ==>
                && projectData == ResetDraft && error == None
                && notification == Some(if editing then UpdatedNotification else CreatedNotification)
      ensures !SubmitSucceeded(editing, status) ==>
                && projectData == old(projectData) && error == Some(SubmitErrorMessage)
                && notification == old(notification)
      ensures !isSubmitting
      ensures allUsers == old(allUsers) && selectedMember == old(selectedMember)
    {
      error := None;
      isSubmitting := true;
      if SubmitSucceeded(editing, status) {
        notification := Some(if editing then UpdatedNotification else CreatedNotification);
        projectData := ResetDraft;
      } else {
        error := Some(SubmitErrorMessage);
      }
      isSubmitting := false;
    }

    /** The `setTimeout` callback armed by a successful submit: three seconds later the notification is cleared. */
    method ClearNotification()
      modifies this
      ensures notification == None
      ensures projectData == old(projectData) && allUsers == old(allUsers) && selectedMember == old(selectedMember)
      ensures isSubmitting == old(isSubmitting) && error == old(error)
    {
      notification := None;
    }
  }
}
