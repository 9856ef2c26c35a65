/** The registered-teams card of a tournament: the search box, the
    "Inscribir mi equipo" button and dialog, and the per-team seed and
    withdraw controls with the seed dialog. */
module RegisteredTeams {
  import opened Wrappers
  import opened Text
  import opened Models
  import Seqs
  import TournamentInfo

  /** A player's name matches when the player is present and its name
      contains the term (`player?.name?.toLowerCase().includes(...)`). */
  predicate PlayerMatches(p: Option<User>, term: string)
  {
    p.Some? && ContainsIgnoreCase(p.value.name, term)
  }

  predicate TeamMatchesSearch(team: Team, term: string)
  {
    ContainsIgnoreCase(team.name, term) || PlayerMatches(team.player1, term) || PlayerMatches(team.player2, term)
  }

  /** `filteredTeams`: the teams whose name or a player's name contains the
      term, case-insensitively, in their original order. */
  function FilteredTeams(teams: seq<Team>, term: string): (r: seq<Team>)
    ensures forall i :: 0 <= i < |r| ==> TeamMatchesSearch(r[i], term)
    ensures forall i :: 0 <= i < |teams| && TeamMatchesSearch(teams[i], term) ==> teams[i] in r
    ensures Seqs.IsSubsequence(r, teams)
  {
    Seqs.Filter(teams, (t: Team) => TeamMatchesSearch(t, term))
  }

  /** An empty search box lists every team. */
  lemma EmptySearchListsAll(teams: seq<Team>)
    ensures FilteredTeams(teams, "") == teams
  {
    forall i | 0 <= i < |teams| ensures TeamMatchesSearch(teams[i], "") {
      EmptyNeedleMatches(teams[i].name);
    }
    Seqs.FilterKeepsAll(teams, (t: Team) => TeamMatchesSearch(t, ""));
  }

  /** `userHasTeamRegistered`: the signed-in user plays in a registered team. */
  predicate UserHasTeamRegistered(teams: seq<Team>, user: Option<User>)
  {
    user.Some? && exists i :: 0 <= i < |teams| && IsMember(teams[i], user.value.id)
  }

  predicate IsRegistered(teams: seq<Team>, team: Team)
  {
    exists i :: 0 <= i < |teams| && teams[i].id == team.id
  }

  /** `availableUserTeams`: the user's own teams that are not registered yet. */
  function AvailableUserTeams(teams: seq<Team>, userTeams: seq<Team>, user: Option<User>): (r: seq<Team>)
    ensures forall i :: 0 <= i < |r| ==> user.Some? && IsMember(r[i], user.value.id) && !IsRegistered(teams, r[i])
    ensures forall i :: 0 <= i < |userTeams| ==>
      (user.Some? && IsMember(userTeams[i], user.value.id) && !IsRegistered(teams, userTeams[i]) ==> userTeams[i] in r)
    ensures user.None? ==> r == []
    ensures Seqs.IsSubsequence(r, userTeams)
  {
    Seqs.Filter(userTeams, (t: Team) => !IsRegistered(teams, t) && user.Some? && IsMember(t, user.value.id))
  }

  datatype ButtonState = Hidden | Disabled | Enabled

  /** "Inscribir mi equipo": shown on an open tournament to a signed-in user
      with no registered team, and enabled when there is a team to offer. */
  function RegisterButton(t: Tournament, user: Option<User>, teams: seq<Team>, userTeams: seq<Team>): (b: ButtonState)
    ensures b != Hidden <==> t.status == OPEN && user.Some? && !UserHasTeamRegistered(teams, user)
    ensures b == Enabled ==> |AvailableUserTeams(teams, userTeams, user)| > 0
    ensures b == Disabled ==> AvailableUserTeams(teams, userTeams, user) == []
  {
    if !(t.status == OPEN && user.Some? && !UserHasTeamRegistered(teams, user)) then Hidden
    else if |AvailableUserTeams(teams, userTeams, user)| == 0 then Disabled
    else Enabled
  }

  /** The seed control of a team row. */
  predicate SeedControlShown(user: Option<User>, t: Tournament)
  {
    TournamentInfo.CanManageTournament(user, t) && t.status != COMPLETED
  }

  /** The withdraw control of a team row: managers, or a member of that team,
      and only while registration is open. */
  predicate WithdrawControlShown(user: Option<User>, t: Tournament, team: Team)
  {
    (TournamentInfo.CanManageTournament(user, t) || (user.Some? && IsMember(team, user.value.id))) && t.status == OPEN
  }

  /** A completed tournament shows no team controls at all, and a visitor
      never sees any. */
  lemma NoControlsWhenClosedOrAnonymous(user: Option<User>, t: Tournament, team: Team)
    ensures t.status == COMPLETED ==> !SeedControlShown(user, t) && !WithdrawControlShown(user, t, team)
    ensures user.None? ==> !SeedControlShown(user, t) && !WithdrawControlShown(user, t, team)
  {
    assert COMPLETED[0] != OPEN[0];
  }

  /** The text the seed field opens with: the current seed, or "" when it is
      absent, 0 or NaN (all falsy). */
  function SeedFieldText(team: Team): (s: string)
    ensures s == "" <==> !(team.seed.Some? && team.seed.value.Int? && team.seed.value.value != 0)
  {
    if team.seed.Some? && team.seed.value.Int? && team.seed.value.value != 0 then IntToString(team.seed.value.value) else ""
  }

  /** The seed dialog's "Guardar": `onAssignSeed(team.id, parseInt(value))`
      for a selected team and a non-empty value, otherwise nothing. */
  function SeedRequest(selected: Option<Team>, seedValue: string): (r: Option<(int, Num)>)
    ensures r.Some? <==> selected.Some? && seedValue != ""
    ensures r.Some? ==> r.value == (selected.value.id, ParseInt(seedValue))
  {
    if selected.Some? && seedValue != "" then Some((selected.value.id, ParseInt(seedValue))) else None
  }

  /** Opening the seed dialog and saving it untouched re-sends the team's
      current seed; a team whose seed is absent, 0 or NaN sends nothing. */
  lemma SeedDialogRoundTrip(team: Team)
    ensures team.seed.Some? && team.seed.value.Int? && team.seed.value.value != 0 ==>
      SeedRequest(Some(team), SeedFieldText(team)) == Some((team.id, team.seed.value))
    ensures !(team.seed.Some? && team.seed.value.Int? && team.seed.value.value != 0) ==>
      SeedRequest(Some(team), SeedFieldText(team)) == None
  {
    if team.seed.Some? && team.seed.value.Int? {
      ParseIntOfIntToString(team.seed.value.value);
    }
  }

  /** The card's local state: the search term and its two dialogs. */
  class TeamsCard {
    var searchTerm: string
    var registerDialogOpen: bool
    var seedDialogOpen: bool
    var selectedTeam: Option<Team>
    var seedValue: string

    constructor ()
      ensures searchTerm == "" && !registerDialogOpen && !seedDialogOpen && selectedTeam == None && seedValue == ""
    {
      searchTerm := "";
      registerDialogOpen, seedDialogOpen := false, false;
      selectedTeam := None;
      seedValue := "";
    }

    method SetSearchTerm(term: string)
      modifies this`searchTerm
      ensures searchTerm == term
    {
      searchTerm := term;
    }

    method OpenRegisterDialog()
      modifies this`registerDialogOpen
      ensures registerDialogOpen
    {
      registerDialogOpen := true;
    }

    method CloseRegisterDialog()
      modifies this`registerDialogOpen
      ensures !registerDialogOpen
    {
      registerDialogOpen := false;
    }

    /** Clicking one of the offered teams registers it and closes the dialog. */
    method PickTeamToRegister(team: Team) returns (teamId: int)
      modifies this`registerDialogOpen
      ensures teamId == team.id && !registerDialogOpen
    {
      teamId := team.id;
      registerDialogOpen := false;
    }

    method OpenSeedDialog(team: Team)
      modifies this`selectedTeam, this`seedValue, this`seedDialogOpen
      ensures selectedTeam == Some(team) && seedValue == SeedFieldText(team) && seedDialogOpen
    {
      selectedTeam := Some(team);
      seedValue := SeedFieldText(team);
      seedDialogOpen := true;
    }

    method CloseSeedDialog()
      modifies this`selectedTeam, this`seedValue, this`seedDialogOpen
      ensures selectedTeam == None && seedValue == "" && !seedDialogOpen
    {
      seedDialogOpen := false;
      selectedTeam := None;
      seedValue := "";
    }

    method SetSeedValue(value: string)
      modifies this`seedValue
      ensures seedValue == value
    {
      seedValue := value;
    }

    /** "Guardar" in the seed dialog: sends the request and closes, or does
        nothing at all when there is nothing to send. */
    method SubmitSeed() returns (request: Option<(int, Num)>)
      modifies this`selectedTeam, this`seedValue, this`seedDialogOpen
      ensures request == SeedRequest(old(selectedTeam), old(seedValue))
      ensures request.Some? ==> selectedTeam == None && seedValue == "" && !seedDialogOpen
      ensures request.None? ==> selectedTeam == old(selectedTeam) && seedValue == old(seedValue) && seedDialogOpen == old(seedDialogOpen)
    {
      request := SeedRequest(selectedTeam, seedValue);
      if request.Some? {
        CloseSeedDialog();
      }
    }
  }
}
