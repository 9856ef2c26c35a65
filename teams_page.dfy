/** The "Equipos" page: the search over the listed teams, and the partner
    picker of the "Crear Equipo" dialog with its user search. */
module TeamsPage {
  import opened Wrappers
  import opened Text
  import opened Models
  import Seqs
  import RegisteredTeams

  const PLAYERS_ERROR := "Error al cargar usuarios disponibles"
  const PLAYERS_PAGE_SIZE := 20
  const TEAM_CREATED := "Equipo creado correctamente"
  const TEAM_CREATE_ERROR := "Error al crear el equipo"

  /** On this page a player's name takes part only when it is truthy. */
  predicate PlayerMatches(p: Option<User>, term: string)
  {
    p.Some? && p.value.name != "" && ContainsIgnoreCase(p.value.name, term)
  }

  predicate TeamMatchesSearch(team: Team, term: string)
  {
    ContainsIgnoreCase(team.name, term) || PlayerMatches(team.player1, term) || PlayerMatches(team.player2, term)
  }

  /** `filteredTeams`: the teams whose name or a player's name contains the
      term, case-insensitively, in their original order. */
  function FilteredTeams(teams: seq<Team>, term: string): (r: seq<Team>)
    ensures forall i :: 0 <= i < |r| ==> TeamMatchesSearch(r[i], term)
    ensures forall i :: 0 <= i < |teams| && TeamMatchesSearch(teams[i], term) ==> teams[i] in r
    ensures Seqs.IsSubsequence(r, teams)
  {
    Seqs.Filter(teams, (t: Team) => TeamMatchesSearch(t, term))
  }

  /** The page's search and the tournament card's search list the same
      teams: a player with an empty name only matches the empty term, which
      the team's name already matches. */
  lemma {:induction false} SameSearchAsRegisteredTeams(teams: seq<Team>, term: string)
    ensures FilteredTeams(teams, term) == RegisteredTeams.FilteredTeams(teams, term)
  {
    forall i | 0 <= i < |teams|
      ensures TeamMatchesSearch(teams[i], term) == RegisteredTeams.TeamMatchesSearch(teams[i], term)
    {
      if term == "" {
        EmptyNeedleMatches(teams[i].name);
      } else {
        if teams[i].player1.Some? && teams[i].player1.value.name == "" {
          EmptyHaystack(term);
        }
        if teams[i].player2.Some? && teams[i].player2.value.name == "" {
          EmptyHaystack(term);
        }
      }
    }
    Seqs.FilterCongruent(teams, (t: Team) => TeamMatchesSearch(t, term),
                                (t: Team) => RegisteredTeams.TeamMatchesSearch(t, term));
  }

  /** The partner picker offers every fetched user except the signed-in
      one, and nobody when no one is signed in. */
  function AvailablePlayers(players: seq<User>, user: Option<User>): (r: seq<User>)
    ensures forall i :: 0 <= i < |r| ==> user.Some? && r[i].id != user.value.id
    ensures forall i :: 0 <= i < |players| && user.Some? && players[i].id != user.value.id ==> players[i] in r
    ensures user.None? ==> r == []
    ensures Seqs.IsSubsequence(r, players)
  {
    Seqs.Filter(players, (p: User) => user.Some? && p.id != user.value.id)
  }

  /** Typing in the partner picker searches the users only from the second
      character on. */
  predicate UserSearchIssued(value: string)
  {
    value != "" && |value| >= 2
  }

  const UNSPECIFIED_LEVEL := "Nivel no especificado"

  /** `getPlayerLevelText`: the four levels the API knows, in Spanish. */
  function PlayerLevelText(level: Option<string>): (text: string)
    ensures text == UNSPECIFIED_LEVEL <==>
      !(level == Some("beginner") || level == Some("intermediate") || level == Some("advanced") || level == Some("pro"))
  {
    if level == Some("beginner") then "Principiante"
    else if level == Some("intermediate") then "Intermedio"
    else if level == Some("advanced") then "Avanzado"
    else if level == Some("pro") then "Profesional"
    else UNSPECIFIED_LEVEL
  }

  /** The page's state held for the create dialog. */
  class TeamsView {
    var dialogOpen: bool
    var availablePlayers: seq<User>
    var loadingPlayers: bool
    var partnerField: string
    var message: Option<Message>

    constructor ()
      ensures !dialogOpen && availablePlayers == [] && !loadingPlayers && partnerField == "" && message == None
    {
      dialogOpen, availablePlayers, loadingPlayers := false, [], false;
      partnerField, message := "", None;
    }

    /** `fetchAvailablePlayers(query)` against `GET /users/public` (first
        page of 20): a body holding a user array fills the picker without
        the signed-in user; anything else empties it and shows an error.
        `response.data` is `None` when the body has no user array. */
    method FetchAvailablePlayers(query: string, user: Option<User>, response: Response<Option<seq<User>>>)
      returns (sentQuery: string, pageSize: int)
      modifies this`availablePlayers, this`loadingPlayers, this`message
      ensures sentQuery == query && pageSize == PLAYERS_PAGE_SIZE && !loadingPlayers
      ensures response.Succeeded? && response.data.Some? ==>
        availablePlayers == AvailablePlayers(response.data.value, user) && message == old(message)
      ensures !(response.Succeeded? && response.data.Some?) ==>
        availablePlayers == [] && message == Some(Message(Error, PLAYERS_ERROR))
    {
      loadingPlayers := true;
      sentQuery, pageSize := query, PLAYERS_PAGE_SIZE;
      if response.Succeeded? && response.data.Some? {
        availablePlayers := AvailablePlayers(response.data.value, user);
      } else {
        message := Some(Message(Error, PLAYERS_ERROR));
        availablePlayers := [];
      }
      loadingPlayers := false;
    }

    /** `handleUserSearch`: a fetch only for input of two characters or more;
        shorter input leaves the state as it is. */
    method UserSearch(value: string, user: Option<User>, response: Response<Option<seq<User>>>)
      returns (issued: bool, sentQuery: string)
      modifies this`availablePlayers, this`loadingPlayers, this`message
      ensures issued <==> UserSearchIssued(value)
      ensures issued ==> sentQuery == value
      ensures !issued ==> availablePlayers == old(availablePlayers) && message == old(message)
      ensures issued && response.Succeeded? && response.data.Some? ==>
        availablePlayers == AvailablePlayers(response.data.value, user) && message == old(message)
      ensures issued && !(response.Succeeded? && response.data.Some?) ==>
        availablePlayers == [] && message == Some(Message(Error, PLAYERS_ERROR))
    {
      issued := value != "" && |value| >= 2;
      sentQuery := "";
      if issued {
        var pageSize;
        sentQuery, pageSize := FetchAvailablePlayers(value, user, response);
      }
    }

    /** Opening the dialog loads the first users with an empty query and
        clears the chosen partner. */
    method OpenDialog(user: Option<User>, response: Response<Option<seq<User>>>) returns (sentQuery: string)
      modifies this`dialogOpen, this`availablePlayers, this`loadingPlayers, this`message, this`partnerField
      ensures sentQuery == "" && dialogOpen && partnerField == "" && !loadingPlayers
      ensures response.Succeeded? && response.data.Some? ==>
        availablePlayers == AvailablePlayers(response.data.value, user) && message == old(message)
      ensures !(response.Succeeded? && response.data.Some?) ==>
        availablePlayers == [] && message == Some(Message(Error, PLAYERS_ERROR))
    {
      dialogOpen := true;
      var pageSize;
      sentQuery, pageSize := FetchAvailablePlayers("", user, response);
      partnerField := "";
    }

    /** The create dialog's submit: the partner's id goes through `Number`.
        After a create the first page of teams is fetched again; only a
        reload that throws turns the outcome into the error message. */
    method CreateTeam(created: Response<()>, reload: Response<()>) returns (sentPartner: Numeric)
      modifies this`message, this`dialogOpen, this`partnerField
      ensures sentPartner == ToNumber(old(partnerField))
      ensures created.Succeeded? && !reload.Threw? ==>
        message == Some(Message(Success, TEAM_CREATED)) && !dialogOpen && partnerField == ""
      ensures !created.Succeeded? || reload.Threw? ==>
        message == Some(Message(Error, TEAM_CREATE_ERROR)) && dialogOpen == old(dialogOpen) && partnerField == old(partnerField)
    {
      sentPartner := ToNumber(partnerField);
      if created.Succeeded? && !reload.Threw? {
        message := Some(Message(Success, TEAM_CREATED));
        dialogOpen := false;
        partnerField := "";
      } else {
        message := Some(Message(Error, TEAM_CREATE_ERROR));
      }
    }
  }
}
