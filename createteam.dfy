/**
 * src/components/createteam/CreateTeam.jsx: the create/edit team form. Members are added
 * from the users not yet in the team and removed by id; the payload sends member ids; an
 * edited team's members take their names from the user list; only a manager sees the form.
 */
module CreateTeamForm {
  import opened Wrappers
  import opened Lists
  import opened Entities
  import opened Members

  const SubmitErrorMessage := "Failed to create/update team. Please ensure you have the necessary permissions."
  const UsersErrorMessage := "Failed to fetch users. Please ensure you have the necessary permissions."
  const CurrentUserErrorMessage := "Failed to fetch current user. Please ensure you are logged in and have the necessary permissions."
  const UpdatedNotification := "Team updated successfully!"
  const CreatedNotification := "Team created successfully!"

  /** The empty draft the form starts with and returns to after a submit. */
  const EmptyTeam := Team("", "", "", [])

  /** A user is available when no member has its id. */
  function NotAMember(members: seq<User>): User -> bool { (u: User) => !AnyMatch(members, HasId(u.id)) }

  /** `availableUsers`: the users no member shares an id with, in their original order. */
  function AvailableUsers(allUsers: seq<User>, members: seq<User>): (r: seq<User>)
    ensures forall u :: u in r <==> u in allUsers && forall i :: 0 <= i < |members| ==> members[i].id != u.id
    ensures forall u :: multiset(r)[u] == if AnyMatch(members, HasId(u.id)) then 0 else multiset(allUsers)[u]
  {
    var r := Filter(allUsers, NotAMember(members));
    forall u ensures multiset(r)[u] == if AnyMatch(members, HasId(u.id)) then 0 else multiset(allUsers)[u] {
      FilterCount(allUsers, NotAMember(members), u);
    }
    r
  }

  /**
   * The available users keep the user list's order: the list distributes over
   * concatenation, and a single user stays exactly when no member has its id.
   */
  lemma AvailableUsersKeepOrder(a: seq<User>, b: seq<User>, u: User, members: seq<User>)
    ensures AvailableUsers(a + b, members) == AvailableUsers(a, members) + AvailableUsers(b, members)
    ensures AvailableUsers([u], members) == if AnyMatch(members, HasId(u.id)) then [] else [u]
  {
    FilterAppend(a, b, NotAMember(members));
  }

  /**
   * `handleMemberAdd` on the members and the selection: nothing happens for an empty
   * selection, one already a member, or one no user has; otherwise the first user with
   * that id is appended and the selection cleared.
   */
  function AddMember(members: seq<User>, selected: string, allUsers: seq<User>): (r: (seq<User>, string))
    ensures selected == "" || AnyMatch(members, HasId(selected)) || !AnyMatch(allUsers, HasId(selected)) ==>
              r == (members, selected)
    ensures selected != "" && !AnyMatch(members, HasId(selected)) && AnyMatch(allUsers, HasId(selected)) ==>
              && r.0 == members + [Find(allUsers, HasId(selected)).value]
              && r.0[|members|].id == selected && r.0[|members|] in allUsers
              && r.1 == ""
  {
    if selected != "" && !AnyMatch(members, HasId(selected)) then
      match Find(allUsers, HasId(selected))
      case Some(u) => (members + [u], "")
      case None => (members, selected)
    else (members, selected)
  }

  /** Adding never gives two members the same id. */
  lemma AddMemberKeepsIdsUnique(members: seq<User>, selected: string, allUsers: seq<User>)
    requires UniqueIds(members, UserId)
    ensures UniqueIds(AddMember(members, selected, allUsers).0, UserId)
  {
    var r := AddMember(members, selected, allUsers).0;
    if r != members {
      forall i, j | 0 <= i < j < |r|
        ensures UserId(r[i]) != UserId(r[j])
      {
        if j == |members| {
          assert r[i] == members[i];
          assert !HasId(selected)(members[i]);
        } else {
          assert r[i] == members[i] && r[j] == members[j];
        }
      }
    }
  }

  /** Adding an available user makes it a member and no longer available. */
  lemma AddedUserLeavesAvailable(members: seq<User>, u: User, allUsers: seq<User>)
    requires u in AvailableUsers(allUsers, members) && u.id != ""
    ensures var r := AddMember(members, u.id, allUsers).0;
            && |r| == |members| + 1
            && r[|members|].id == u.id
            && u !in AvailableUsers(allUsers, r)
  {
    assert u in allUsers;
    var k :| 0 <= k < |allUsers| && allUsers[k] == u;
    assert HasId(u.id)(allUsers[k]);
    var r := AddMember(members, u.id, allUsers).0;
    assert r[|members|].id == u.id;
  }

  /** What the form sends: the team with its members replaced by their ids. */
  datatype TeamPayload = TeamPayload(id: string, name: string, description: string, members: seq<string>)

  function Payload(t: Team): (r: TeamPayload)
    ensures r.id == t.id && r.name == t.name && r.description == t.description
    ensures |r.members| == |t.members| && forall i :: 0 <= i < |t.members| ==> r.members[i] == t.members[i].id
  {
    TeamPayload(t.id, t.name, t.description, Ids(t.members, UserId))
  }

  /** The member as shown on edit: the name of the first user with its id, or the member as it was. */
  function MergeName(m: User, allUsers: seq<User>): (r: User)
    ensures r.id == m.id && r.role == m.role
    ensures Find(allUsers, HasId(m.id)).Some? ==> r.name == Find(allUsers, HasId(m.id)).value.name
    ensures Find(allUsers, HasId(m.id)).None? ==> r == m
  {
    match Find(allUsers, HasId(m.id))
    case Some(u) => m.(name := u.name)
    case None => m
  }

  /** The edit-load merge over all members. */
  function MergeNames(members: seq<User>, allUsers: seq<User>): (r: seq<User>)
    ensures |r| == |members|
    ensures forall i :: 0 <= i < |members| ==> r[i] == MergeName(members[i], allUsers)
  {
    seq(|members|, i requires 0 <= i < |members| => MergeName(members[i], allUsers))
  }

  /** The merge never changes which ids the team holds, so the payload is the same. */
  lemma MergeNamesKeepsPayload(t: Team, allUsers: seq<User>)
    ensures Payload(t.(members := MergeNames(t.members, allUsers))) == Payload(t)
  {
  }

  /** What the component renders first. */
  datatype Gate = Loading | NotManager | ShowForm

  /** The form appears only once the current user is known and is a manager. */
  function FormGate(currentUser: Option<User>): (g: Gate)
    ensures g == ShowForm <==> currentUser.Some? && currentUser.value.role == Manager
    ensures g == Loading <==> currentUser.None?
  {
    match currentUser
    case None => Loading
    case Some(u) => if u.role != Manager then NotManager else ShowForm
  }

  class CreateTeam {
    var teamData: Team
    var allUsers: seq<User>
    var error: Option<string>
    var notification: Option<string>
    var selectedMember: string
    var currentUser: Option<User>

    constructor()
      ensures teamData == EmptyTeam && allUsers == [] && error == None && notification == None
      ensures selectedMember == "" && currentUser == None
    {
      teamData := EmptyTeam;
      allUsers := [];
      error := None;
      notification := None;
      selectedMember := "";
      currentUser := None;
    }

    /** `fetchUsers`: the fetched users, or the error message when the fetch fails. */
    method FetchUsers(fetched: Option<seq<User>>)
      modifies this
      ensures fetched.Some? ==> allUsers == fetched.value && error == old(error)
      ensures fetched.None? ==> allUsers == old(allUsers) && error == Some(UsersErrorMessage)
      ensures teamData == old(teamData) && selectedMember == old(selectedMember) && currentUser == old(currentUser)
      ensures notification == old(notification)
    {
      if fetched.Some? {
        allUsers := fetched.value;
      } else {
        error := Some(UsersErrorMessage);
      }
    }

    /** `fetchCurrentUser`: the profile, or the error message when the fetch fails. */
    method FetchCurrentUser(profile: Option<User>)
      modifies this
      ensures profile.Some? ==> currentUser == profile && error == old(error)
      ensures profile.None? ==> currentUser == old(currentUser) && error == Some(CurrentUserErrorMessage)
      ensures teamData == old(teamData) && allUsers == old(allUsers)
      ensures notification == old(notification) && selectedMember == old(selectedMember)
    {
      if profile.Some? {
        currentUser := profile;
      } else {
        error := Some(CurrentUserErrorMessage);
      }
    }

    /** The effect on `[teamToEdit, allUsers]`: an edited team is loaded with merged names once users exist. */
    method LoadTeamToEdit(teamToEdit: Option<Team>)
      modifies this
      ensures teamToEdit.Some? && |allUsers| > 0 ==>
                teamData == teamToEdit.value.(members := MergeNames(teamToEdit.value.members, allUsers))
      ensures teamToEdit.None? || |allUsers| == 0 ==> teamData == old(teamData)
      ensures allUsers == old(allUsers) && selectedMember == old(selectedMember)
      ensures error == old(error) && notification == old(notification) && currentUser == old(currentUser)
    {
      if teamToEdit.Some? && |allUsers| > 0 {
        teamData := teamToEdit.value.(members := MergeNames(teamToEdit.value.members, allUsers));
      }
    }

    method SelectMember(id: string)
      modifies this
      ensures selectedMember == id && teamData == old(teamData) && allUsers == old(allUsers)
      ensures error == old(error) && notification == old(notification) && currentUser == old(currentUser)
    {
      selectedMember := id;
    }

    method HandleMemberAdd()
      modifies this
      ensures var r := AddMember(old(teamData.members), old(selectedMember), old(allUsers));
              teamData == old(teamData).(members := r.0) && selectedMember == r.1
      ensures allUsers == old(allUsers)
      ensures error == old(error) && notification == old(notification) && currentUser == old(currentUser)
    {
      var r := AddMember(teamData.members, selectedMember, allUsers);
      teamData := teamData.(members := r.0);
      selectedMember := r.1;
    }

    method HandleMemberRemove(id: string)
      modifies this
      ensures teamData == old(teamData).(members := RemoveMember(old(teamData.members), id))
      ensures allUsers == old(allUsers) && selectedMember == old(selectedMember)
      ensures error == old(error) && notification == old(notification) && currentUser == old(currentUser)
    {
      teamData := teamData.(members := RemoveMember(teamData.members, id));
    }

    /**
     * `handleSubmit`: sends `Payload(teamData)`; on success the notification matches the
     * operation and the draft is emptied, on failure the error is shown and the draft kept.
     */
    method HandleSubmit(editing: bool, succeeded: bool) returns (sent: TeamPayload)
      modifies this
      ensures sent == Payload(old(teamData))
      ensures succeeded ==> teamData == EmptyTeam && error == None
                            && notification == Some(if editing then UpdatedNotification else CreatedNotification)
      ensures !succeeded ==> teamData == old(teamData) && error == Some(SubmitErrorMessage)
                             && notification == old(notification)
      ensures allUsers == old(allUsers) && selectedMember == old(selectedMember)
      ensures currentUser == old(currentUser)
    {
      error := None;
      sent := Payload(teamData);
      if succeeded {
        notification := Some(if editing then UpdatedNotification else CreatedNotification);
        teamData := EmptyTeam;
      } else {
        error := Some(SubmitErrorMessage);
      }
    }

    /** The `setTimeout` callback armed by a successful submit: three seconds later the notification is cleared. */
    method ClearNotification()
      modifies this
      ensures notification == None
      ensures teamData == old(teamData) && allUsers == old(allUsers) && error == old(error)
      ensures selectedMember == old(selectedMember) && currentUser == old(currentUser)
    {
      notification := None;
    }
  }
}
