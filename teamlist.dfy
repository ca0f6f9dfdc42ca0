/**
 * src/components/teamlist/TeamList.jsx: the team list view. Created teams are appended,
 * updated teams replace the entry with their id, the create button shows only for a
 * manager profile, and the members modal and toasts follow the handlers.
 */
module TeamListView {
  import opened Wrappers
  import opened Lists
  import opened Entities

  const CreatedMessage := "Team created successfully"
  const UpdatedMessage := "Team updated successfully"
  const DeletedMessage := "Team deleted successfully"
  const DeleteErrorMessage := "Error deleting team"

  /** The manager flag after the profile fetch: the profile's role decides; a failed fetch keeps the flag. */
  function ManagerFlag(previous: bool, profile: Option<User>): (r: bool)
    ensures profile.Some? ==> (r <==> profile.value.role == Manager)
    ensures profile.None? ==> r == previous
  {
    match profile
    case Some(u) => u.role == Manager
    case None => previous
  }

  /** A team updated right after being created under a fresh id replaces just that last entry. */
  lemma UpdateAfterCreate(teams: seq<Team>, created: Team, updated: Team)
    requires forall i :: 0 <= i < |teams| ==> teams[i].id != created.id
    requires updated.id == created.id
    ensures ReplaceById(teams + [created], TeamId, updated) == teams + [updated]
  {
    ReplaceByIdAbsent(teams, TeamId, updated);
    ReplaceByIdAppend(teams, [created], TeamId, updated);
  }

  /**
   * With unique team ids, an update whose id is at index k changes exactly that entry;
   * an update whose id no team has changes nothing. Ids and length are kept either way.
   */
  lemma UpdateReplacesOne(teams: seq<Team>, updated: Team)
    requires UniqueIds(teams, TeamId)
    ensures Ids(ReplaceById(teams, TeamId, updated), TeamId) == Ids(teams, TeamId)
    ensures forall k :: 0 <= k < |teams| && teams[k].id == updated.id ==>
              ReplaceById(teams, TeamId, updated) == teams[k := updated]
    ensures (forall i :: 0 <= i < |teams| ==> teams[i].id != updated.id) ==>
              ReplaceById(teams, TeamId, updated) == teams
  {
    ReplaceByIdKeepsIds(teams, TeamId, updated);
    forall k | 0 <= k < |teams| && teams[k].id == updated.id
      ensures ReplaceById(teams, TeamId, updated) == teams[k := updated]
    {
      ReplaceByIdExactlyOne(teams, TeamId, updated, k);
    }
    if forall i :: 0 <= i < |teams| ==> teams[i].id != updated.id {
      ReplaceByIdAbsent(teams, TeamId, updated);
    }
  }

  class TeamList {
    var teams: seq<Team>
    var selectedTeam: Option<Team>
    var showModal: bool
    var showCreateModal: bool
    var teamToEdit: Option<Team>
    var showToast: bool
    var toastMessage: string
    var isManager: bool

    constructor()
      ensures teams == [] && selectedTeam == None && !showModal && !showCreateModal
      ensures teamToEdit == None && !showToast && toastMessage == "" && !isManager
    {
      teams := [];
      selectedTeam := None;
      showModal := false;
      showCreateModal := false;
      teamToEdit := None;
      showToast := false;
      toastMessage := "";
      isManager := false;
    }

    /** `fetchTeams`: the fetched teams; a failed fetch keeps the list. */
    method FetchTeams(fetched: Option<seq<Team>>)
      modifies this
      ensures teams == if fetched.Some? then fetched.value else old(teams)
      ensures selectedTeam == old(selectedTeam) && showModal == old(showModal)
      ensures showCreateModal == old(showCreateModal) && teamToEdit == old(teamToEdit)
      ensures isManager == old(isManager) && toastMessage == old(toastMessage) && showToast == old(showToast)
    {
      if fetched.Some? {
        teams := fetched.value;
      }
    }

    /** `checkUserRole` with the profile fetch's result (None when it fails). */
    method CheckUserRole(profile: Option<User>)
      modifies this
      ensures isManager == ManagerFlag(old(isManager), profile)
      ensures teams == old(teams) && selectedTeam == old(selectedTeam) && showModal == old(showModal)
      ensures showCreateModal == old(showCreateModal) && teamToEdit == old(teamToEdit)
      ensures toastMessage == old(toastMessage) && showToast == old(showToast)
    {
      if profile.Some? {
        isManager := profile.value.role == Manager;
      }
    }

    /** `handleViewMembers` with the team fetch's result: a fetched team opens the modal. */
    method HandleViewMembers(fetched: Option<Team>)
      modifies this
      ensures fetched.Some? ==> selectedTeam == fetched && showModal
      ensures fetched.None? ==> selectedTeam == old(selectedTeam) && showModal == old(showModal)
      ensures teams == old(teams) && showCreateModal == old(showCreateModal) && teamToEdit == old(teamToEdit)
      ensures isManager == old(isManager) && toastMessage == old(toastMessage) && showToast == old(showToast)
    {
      if fetched.Some? {
        selectedTeam := fetched;
        showModal := true;
      }
    }

    method HandleCloseModal()
      modifies this
      ensures !showModal && selectedTeam == None
      ensures teams == old(teams) && showCreateModal == old(showCreateModal) && teamToEdit == old(teamToEdit)
      ensures isManager == old(isManager) && toastMessage == old(toastMessage) && showToast == old(showToast)
    {
      showModal := false;
      selectedTeam := None;
    }

    /**
     * `handleDeleteTeam`: a successful delete fetches the teams again (`refetched` is that
     * fetch's result) and reports success; a failure reports the error.
     */
    method HandleDeleteTeam(deleted: bool, refetched: Option<seq<Team>>)
      modifies this
      ensures deleted ==> teams == (if refetched.Some? then refetched.value else old(teams)) && toastMessage == DeletedMessage
      ensures !deleted ==> teams == old(teams) && toastMessage == DeleteErrorMessage
      ensures showToast && isManager == old(isManager)
      ensures selectedTeam == old(selectedTeam) && showModal == old(showModal)
      ensures showCreateModal == old(showCreateModal) && teamToEdit == old(teamToEdit)
    {
      if deleted {
        FetchTeams(refetched);
        toastMessage := DeletedMessage;
      } else {
        toastMessage := DeleteErrorMessage;
      }
      showToast := true;
    }

    method HandleCreateTeam()
      modifies this
      ensures teamToEdit == None && showCreateModal
      ensures teams == old(teams) && selectedTeam == old(selectedTeam) && showModal == old(showModal)
      ensures isManager == old(isManager) && toastMessage == old(toastMessage) && showToast == old(showToast)
    {
      teamToEdit := None;
      showCreateModal := true;
    }

    method HandleEditTeam(team: Team)
      modifies this
      ensures teamToEdit == Some(team) && showCreateModal
      ensures teams == old(teams) && selectedTeam == old(selectedTeam) && showModal == old(showModal)
      ensures isManager == old(isManager) && toastMessage == old(toastMessage) && showToast == old(showToast)
    {
      teamToEdit := Some(team);
      showCreateModal := true;
    }

    /** `handleTeamCreated`: the new team goes last. */
    method HandleTeamCreated(newTeam: Team)
      modifies this
      ensures teams == old(teams) + [newTeam]
      ensures !showCreateModal && toastMessage == CreatedMessage && showToast
      ensures isManager == old(isManager) && selectedTeam == old(selectedTeam)
      ensures showModal == old(showModal) && teamToEdit == old(teamToEdit)
    {
      teams := teams + [newTeam];
      showCreateModal := false;
      toastMessage := CreatedMessage;
      showToast := true;
    }

    /** `handleTeamUpdated`: the team with the updated id is replaced, everything else kept in place. */
    method HandleTeamUpdated(updatedTeam: Team)
      modifies this
      ensures teams == ReplaceById(old(teams), TeamId, updatedTeam)
      ensures !showCreateModal && toastMessage == UpdatedMessage && showToast
      ensures isManager == old(isManager) && selectedTeam == old(selectedTeam)
      ensures showModal == old(showModal) && teamToEdit == old(teamToEdit)
    {
      teams := ReplaceById(teams, TeamId, updatedTeam);
      showCreateModal := false;
      toastMessage := UpdatedMessage;
      showToast := true;
    }

    /** The toast's `onClose`, called when it is dismissed or when `autohide` fires after three seconds: the toast is hidden and its message kept. */
    method HideToast()
      modifies this
      ensures !showToast
      ensures teams == old(teams) && selectedTeam == old(selectedTeam) && showModal == old(showModal)
      ensures showCreateModal == old(showCreateModal) && teamToEdit == old(teamToEdit) && toastMessage == old(toastMessage)
      ensures isManager == old(isManager)
    {
      showToast := false;
    }
  }
}
