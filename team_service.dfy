/** `getUserTeams` of the team service: the API has no per-user endpoint, so
    the service fetches the first page of teams and keeps those the user
    plays in. */
module TeamService {
  import opened Wrappers
  import opened Models
  import Seqs
  import RegisteredTeams

  /** The page size of the one request `getUserTeams` makes: teams beyond
      the first hundred are never looked at. */
  const USER_TEAMS_LIMIT := 100

  const USER_TEAMS_FOUND := "Equipos del usuario obtenidos correctamente"
  const USER_TEAMS_ERROR := "Error al obtener equipos del usuario"

  /** What `getUserTeams` returns. */
  datatype UserTeamsResult =
    /** `success: true` with the user's teams. */
    | Found(message: string, teams: seq<Team>)
    /** The API's own unsuccessful reply, returned as it came. */
    | PassedOn(error: string)
    /** A caught exception: `success: false` with an empty list. */
    | Caught(message: string, teams: seq<Team>)

  /** The teams of one user, in the order fetched. */
  function UserTeams(teams: seq<Team>, userId: int): (r: seq<Team>)
    ensures forall i :: 0 <= i < |r| ==> IsMember(r[i], userId)
    ensures forall i :: 0 <= i < |teams| && IsMember(teams[i], userId) ==> teams[i] in r
    ensures Seqs.IsSubsequence(r, teams)
  {
    Seqs.Filter(teams, (t: Team) => IsMember(t, userId))
  }

  /** `getUserTeams(userId)` given the reply to `GET /teams?limit=100`.
      `response.data` is `None` when a successful reply carries no team
      list, which makes the filter throw. */
  function GetUserTeams(userId: int, response: Response<Option<seq<Team>>>): (r: UserTeamsResult)
    ensures r.Found? <==> response.Succeeded? && response.data.Some?
    ensures r.Found? ==> r.message == USER_TEAMS_FOUND && r.teams == UserTeams(response.data.value, userId)
    ensures r.PassedOn? <==> response.Rejected?
    ensures r.PassedOn? ==> r.error == response.error
    ensures r.Caught? ==> r.message == USER_TEAMS_ERROR && r.teams == []
  {
    match response
    case Succeeded(data) =>
      if data.Some? then Found(USER_TEAMS_FOUND, UserTeams(data.value, userId))
      else Caught(USER_TEAMS_ERROR, [])
    case Rejected(error) => PassedOn(error)
    case Threw(_) => Caught(USER_TEAMS_ERROR, [])
  }

  /** Filtering an already filtered list for the same user changes nothing. */
  lemma UserTeamsIdempotent(teams: seq<Team>, userId: int)
    ensures UserTeams(UserTeams(teams, userId), userId) == UserTeams(teams, userId)
  {
    var r := UserTeams(teams, userId);
    Seqs.FilterKeepsAll(r, (t: Team) => IsMember(t, userId));
  }

  /** The tournament card's offer, fed with the service's list, is the
      fetched teams the user plays in and that are not yet registered. */
  lemma {:induction false} OfferedTeamsFromFetchedPage(registered: seq<Team>, fetched: seq<Team>, user: User)
    ensures RegisteredTeams.AvailableUserTeams(registered, UserTeams(fetched, user.id), Some(user)) ==
      Seqs.Filter(fetched, (t: Team) => IsMember(t, user.id) && !RegisteredTeams.IsRegistered(registered, t))
  {
    var member := (t: Team) => IsMember(t, user.id);
    var offered := (t: Team) => !RegisteredTeams.IsRegistered(registered, t) && Some(user).Some? && IsMember(t, user.id);
    var both := (t: Team) => IsMember(t, user.id) && !RegisteredTeams.IsRegistered(registered, t);
    Seqs.FilterTwice(fetched, member, offered, both);
  }
}
