/** The entities the front end receives from the API (users, teams,
    tournaments, matches), as immutable values. Optional properties of the
    TypeScript interfaces are `Option`s; statuses are the raw strings the
    API sends, because the views compare and display them as strings. */
module Models {
  import opened Wrappers
  import opened Text

  datatype User = User(
    id: int,
    name: string,
    email: string,
    phone: Option<string>,
    userRoleId: int,
    userStatusId: int,
    playerLevel: Option<string>,
    dominantHand: Option<string>,
    experienceYears: Option<int>,
    heightCm: Option<int>,
    weightKg: Option<int>,
    city: Option<string>,
    country: Option<string>,
    playingPosition: Option<string>,
    favoriteRacket: Option<string>,
    photo: Option<string>)

  /** A two-player team; `seed` is the seeding assigned within one tournament. */
  datatype Team = Team(
    id: int,
    name: string,
    description: Option<string>,
    player1Id: int,
    player2Id: int,
    player1: Option<User>,
    player2: Option<User>,
    seed: Option<Num>)

  const DRAFT := "draft"
  const OPEN := "open"
  const IN_PROGRESS := "in_progress"
  const COMPLETED := "completed"
  const PENDING := "pending"
  const SCHEDULED := "scheduled"
  const CANCELLED := "cancelled"

  datatype Tournament = Tournament(
    id: int,
    name: string,
    description: Option<string>,
    organizerId: int,
    startDate: string,
    endDate: string,
    status: string,
    format: string,
    maxTeams: Option<int>,
    location: Option<string>)

  /** The games won by each team in one set. */
  datatype SetScore = SetScore(team1: int, team2: int)

  /** A match's set results arrive either as JSON text or as a decoded array. */
  datatype SetResults = SetsText(json: string) | SetsList(sets: seq<SetScore>)

  datatype Match = Match(
    id: int,
    tournamentId: int,
    round: int,
    matchNumber: int,
    team1Id: int,
    team2Id: int,
    status: string,
    scheduledAt: Option<string>,
    completedAt: Option<string>,
    team1Score: Option<int>,
    team2Score: Option<int>,
    scoreTeam1: Option<int>,
    scoreTeam2: Option<int>,
    winnerId: Option<int>,
    team1: Option<Team>,
    team2: Option<Team>,
    tournament: Option<Tournament>,
    setResults: Option<SetResults>)

  /** JavaScript truthiness of an optional number: present and not 0. */
  predicate IsTruthy(n: Option<int>) { n.Some? && n.value != 0 }

  /** JavaScript truthiness of an optional string: present and not "". */
  predicate IsTruthyText(s: Option<string>) { s.Some? && s.value != "" }

  /** The user plays in the team (as either player). */
  predicate IsMember(t: Team, userId: int) { t.player1Id == userId || t.player2Id == userId }
}
