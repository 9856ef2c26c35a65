/** The tournament detail page: the state it holds (the tournament, its
    registered teams and matches, the feedback banner) and the handlers that
    call the API and fold the answer back into that state. */
module TournamentDetail {
  import opened Wrappers
  import opened Text
  import opened Models
  import Seqs
  import MatchResultForm

  /** A field of a partial update: absent from the body, or present with a value. */
  datatype Patch<T> = Keep | Put(value: T)

  function Pick<T>(p: Patch<T>, current: T): (r: T)
    ensures p.Keep? ==> r == current
    ensures p.Put? ==> r == p.value
  {
    match p
    case Keep => current
    case Put(v) => v
  }

  /** The match object an API call returns: any subset of a match's fields. */
  datatype MatchPatch = MatchPatch(
    id: Patch<int>,
    tournamentId: Patch<int>,
    round: Patch<int>,
    matchNumber: Patch<int>,
    team1Id: Patch<int>,
    team2Id: Patch<int>,
    status: Patch<string>,
    scheduledAt: Patch<Option<string>>,
    completedAt: Patch<Option<string>>,
    team1Score: Patch<Option<int>>,
    team2Score: Patch<Option<int>>,
    scoreTeam1: Patch<Option<int>>,
    scoreTeam2: Patch<Option<int>>,
    winnerId: Patch<Option<int>>,
    team1: Patch<Option<Team>>,
    team2: Patch<Option<Team>>,
    tournament: Patch<Option<Tournament>>,
    setResults: Patch<Option<SetResults>>)

  const EMPTY_PATCH := MatchPatch(Keep, Keep, Keep, Keep, Keep, Keep, Keep, Keep, Keep,
                                  Keep, Keep, Keep, Keep, Keep, Keep, Keep, Keep, Keep)

  /** `{ ...m, ...p }`: the fields the answer carries replace those of the
      match; every other field is kept. */
  function ApplyPatch(m: Match, p: MatchPatch): (r: Match)
    ensures r.id == Pick(p.id, m.id) && r.tournamentId == Pick(p.tournamentId, m.tournamentId)
    ensures r.round == Pick(p.round, m.round) && r.matchNumber == Pick(p.matchNumber, m.matchNumber)
    ensures r.team1Id == Pick(p.team1Id, m.team1Id) && r.team2Id == Pick(p.team2Id, m.team2Id)
    ensures r.status == Pick(p.status, m.status)
    ensures r.scheduledAt == Pick(p.scheduledAt, m.scheduledAt) && r.completedAt == Pick(p.completedAt, m.completedAt)
    ensures r.team1Score == Pick(p.team1Score, m.team1Score) && r.team2Score == Pick(p.team2Score, m.team2Score)
    ensures r.scoreTeam1 == Pick(p.scoreTeam1, m.scoreTeam1) && r.scoreTeam2 == Pick(p.scoreTeam2, m.scoreTeam2)
    ensures r.winnerId == Pick(p.winnerId, m.winnerId)
    ensures r.team1 == Pick(p.team1, m.team1) && r.team2 == Pick(p.team2, m.team2)
    ensures r.tournament == Pick(p.tournament, m.tournament) && r.setResults == Pick(p.setResults, m.setResults)
  {
    Match(
      Pick(p.id, m.id), Pick(p.tournamentId, m.tournamentId), Pick(p.round, m.round),
      Pick(p.matchNumber, m.matchNumber), Pick(p.team1Id, m.team1Id), Pick(p.team2Id, m.team2Id),
      Pick(p.status, m.status), Pick(p.scheduledAt, m.scheduledAt), Pick(p.completedAt, m.completedAt),
      Pick(p.team1Score, m.team1Score), Pick(p.team2Score, m.team2Score),
      Pick(p.scoreTeam1, m.scoreTeam1), Pick(p.scoreTeam2, m.scoreTeam2),
      Pick(p.winnerId, m.winnerId), Pick(p.team1, m.team1), Pick(p.team2, m.team2),
      Pick(p.tournament, m.tournament), Pick(p.setResults, m.setResults))
  }

  /** An answer with no fields changes nothing. */
  lemma EmptyPatchKeepsMatch(m: Match)
    ensures ApplyPatch(m, EMPTY_PATCH) == m
  {
  }

  /** Merging the same answer twice is merging it once. */
  lemma ApplyPatchIdempotent(m: Match, p: MatchPatch)
    ensures ApplyPatch(ApplyPatch(m, p), p) == ApplyPatch(m, p)
  {
  }

  /** The match list after a result is stored: every match with the id gets
      the answer merged in, every other match is untouched, none is added or
      dropped. */
  function MergeMatch(ms: seq<Match>, matchId: int, p: MatchPatch): (r: seq<Match>)
    ensures |r| == |ms|
    ensures forall i :: 0 <= i < |ms| && ms[i].id != matchId ==> r[i] == ms[i]
    ensures forall i :: 0 <= i < |ms| && ms[i].id == matchId ==> r[i] == ApplyPatch(ms[i], p)
  {
    if ms == [] then []
    else [if ms[0].id == matchId then ApplyPatch(ms[0], p) else ms[0]] + MergeMatch(ms[1..], matchId, p)
  }

  /** Storing the same answer twice leaves the list as storing it once. */
  lemma MergeMatchIdempotent(ms: seq<Match>, matchId: int, p: MatchPatch)
    requires p.id.Keep? || p.id == Put(matchId)
    ensures MergeMatch(MergeMatch(ms, matchId, p), matchId, p) == MergeMatch(ms, matchId, p)
  {
    var once := MergeMatch(ms, matchId, p);
    forall i | 0 <= i < |ms|
      ensures MergeMatch(once, matchId, p)[i] == once[i]
    {
      if ms[i].id == matchId {
        ApplyPatchIdempotent(ms[i], p);
      }
    }
  }

  /** The registered teams after team `teamId` is withdrawn. */
  function RemoveTeam(teams: seq<Team>, teamId: int): (r: seq<Team>)
    ensures forall i :: 0 <= i < |r| ==> r[i].id != teamId
    ensures forall i :: 0 <= i < |teams| && teams[i].id != teamId ==> teams[i] in r
    ensures Seqs.IsSubsequence(r, teams)
  {
    Seqs.Filter(teams, (t: Team) => t.id != teamId)
  }

  /** Withdrawing a team that is not registered changes nothing. */
  lemma RemoveAbsentTeam(teams: seq<Team>, teamId: int)
    requires forall i :: 0 <= i < |teams| ==> teams[i].id != teamId
    ensures RemoveTeam(teams, teamId) == teams
  {
    Seqs.FilterKeepsAll(teams, (t: Team) => t.id != teamId);
  }

  /** The registered teams after team `teamId` is given `seed`: that team's
      seed changes, nothing else does. */
  function WithSeed(teams: seq<Team>, teamId: int, seed: Num): (r: seq<Team>)
    ensures |r| == |teams|
    ensures forall i :: 0 <= i < |teams| ==> r[i].id == teams[i].id
    ensures forall i :: 0 <= i < |teams| && teams[i].id == teamId ==> r[i] == teams[i].(seed := Some(seed))
    ensures forall i :: 0 <= i < |teams| && teams[i].id != teamId ==> r[i] == teams[i]
  {
    seq(|teams|, i requires 0 <= i < |teams| => if teams[i].id == teamId then teams[i].(seed := Some(seed)) else teams[i])
  }

  /** The body of a match write: the result as the form hands it over. */
  datatype MatchWrite = MatchWrite(
    status: string, team1Score: int, team2Score: int,
    setResults: seq<MatchResultForm.ParsedSet>, winnerId: Option<int>)

  /** The one API call a result submission makes: the finalising
      `POST /matches/:id/result`, or the partial `PUT /matches/:id/update`. */
  datatype MatchCall = RegisterResultCall(matchId: int, body: MatchWrite) | UpdateMatchCall(matchId: int, body: MatchWrite)

  function ChooseResultCall(s: MatchResultForm.ResultSubmission): (c: MatchCall)
    ensures c.RegisterResultCall? <==> s.status == COMPLETED && IsTruthy(s.winnerId)
    ensures c.matchId == s.matchId
    ensures c.body == MatchWrite(s.status, s.scoreTeam1, s.scoreTeam2, s.setResults, s.winnerId)
  {
    var body := MatchWrite(s.status, s.scoreTeam1, s.scoreTeam2, s.setResults, s.winnerId);
    if s.status == COMPLETED && IsTruthy(s.winnerId) then RegisterResultCall(s.matchId, body.(status := COMPLETED, winnerId := s.winnerId))
    else UpdateMatchCall(s.matchId, body)
  }

  /** Every completed result the form lets through is finalised, and every
      other one is a partial update. */
  lemma FormResultsTakeTheirPath(m: Option<Match>, sets: seq<MatchResultForm.SetEntry>, score1: int, score2: int, status: string)
    requires MatchResultForm.CheckSubmission(m, sets, score1, score2, status).Sent?
    ensures var c := ChooseResultCall(MatchResultForm.CheckSubmission(m, sets, score1, score2, status).submission);
      c.RegisterResultCall? <==> status == COMPLETED
  {
  }

  /** 6-3, 4-6, 6-2 completed is finalised with 2 sets to 1 for team1. */
  lemma ThreeSetWinIsFinalised(m: Match)
    requires m.team1.Some? && m.team1.value.id != 0
    ensures var sets := [MatchResultForm.SetEntry("6", "3"), MatchResultForm.SetEntry("4", "6"), MatchResultForm.SetEntry("6", "2")];
      var c := ChooseResultCall(MatchResultForm.CheckSubmission(Some(m), sets, 2, 1, COMPLETED).submission);
      c.RegisterResultCall? && c.body.team1Score == 2 && c.body.team2Score == 1 && c.body.winnerId == Some(m.team1.value.id)
  {
    MatchResultForm.ThreeSetWinForTeam1(m);
  }

  /** A service call the page makes for its tournament (the id is the route
      parameter through parseInt). */
  datatype TournamentCall =
    | OpenRegistrationCall(tournamentId: Num)
    | GenerateBracketsCall(tournamentId: Num)
    | UpdateTournamentCall(tournamentId: Num, status: string)
    | RegisterTeamCall(tournamentId: Num, teamId: int)
    | GetRegisteredTeamsCall(tournamentId: Num)
    | UnregisterTeamCall(tournamentId: Num, teamId: int)
    | AssignSeedCall(tournamentId: Num, teamId: int, seed: Num)

  /** What `generateBrackets` returns: the started tournament and its matches. */
  datatype Brackets = Brackets(tournament: Tournament, matches: seq<Match>)

  class DetailPage {
    /** The `:id` route parameter. */
    const routeId: Option<string>
    var tournament: Option<Tournament>
    var registeredTeams: seq<Team>
    var matches: seq<Match>
    var message: Option<Message>

    constructor (routeId: Option<string>)
      ensures this.routeId == routeId
      ensures tournament == None && registeredTeams == [] && matches == [] && message == None
    {
      this.routeId := routeId;
      tournament := None;
      registeredTeams := [];
      matches := [];
      message := None;
    }

    /** The guard `if (!id || !tournament) return;` of the tournament actions. */
    predicate CanAct()
      reads this
    {
      routeId.Some? && routeId.value != "" && tournament.Some?
    }

    function TournamentId(): Num
      requires routeId.Some?
    {
      ParseInt(routeId.value)
    }

    /** "Abrir inscripciones". */
    method OpenRegistration(response: Response<Tournament>) returns (calls: seq<TournamentCall>)
      modifies this`tournament, this`message
      ensures !old(CanAct()) ==> calls == [] && tournament == old(tournament) && message == old(message)
      ensures old(CanAct()) ==> calls == [OpenRegistrationCall(TournamentId())]
      ensures old(CanAct()) && response.Succeeded? ==>
        tournament == Some(response.data) && message == Some(Message(Success, "Inscripciones abiertas correctamente"))
      ensures old(CanAct()) && !response.Succeeded? ==>
        tournament == old(tournament) && message == Some(Message(Error, FailureText(response, "Error al abrir inscripciones")))
    {
      if !CanAct() {
        return [];
      }
      calls := [OpenRegistrationCall(TournamentId())];
      match response
      case Succeeded(t) =>
        tournament := Some(t);
        message := Some(Message(Success, "Inscripciones abiertas correctamente"));
      case Rejected(error) =>
        message := Some(Message(Error, if error != "" then error else "Error al abrir inscripciones"));
      case Threw(_) =>
        message := Some(Message(Error, "Error al abrir inscripciones"));
    }

    /** "Iniciar torneo": the generated matches replace the local list. */
    method StartTournament(response: Response<Brackets>) returns (calls: seq<TournamentCall>)
      modifies this`tournament, this`matches, this`message
      ensures !old(CanAct()) ==> calls == [] && tournament == old(tournament) && matches == old(matches) && message == old(message)
      ensures old(CanAct()) ==> calls == [GenerateBracketsCall(TournamentId())]
      ensures old(CanAct()) && response.Succeeded? ==>
        tournament == Some(response.data.tournament) && matches == response.data.matches
        && message == Some(Message(Success, "Torneo iniciado correctamente"))
      ensures old(CanAct()) && !response.Succeeded? ==>
        tournament == old(tournament) && matches == old(matches)
        && message == Some(Message(Error, FailureText(response, "Error al iniciar el torneo")))
    {
      if !CanAct() {
        return [];
      }
      calls := [GenerateBracketsCall(TournamentId())];
      match response
      case Succeeded(b) =>
        tournament := Some(b.tournament);
        matches := b.matches;
        message := Some(Message(Success, "Torneo iniciado correctamente"));
      case Rejected(error) =>
        message := Some(Message(Error, if error != "" then error else "Error al iniciar el torneo"));
      case Threw(_) =>
        message := Some(Message(Error, "Error al iniciar el torneo"));
    }

    /** "Finalizar torneo": a plain status update to "completed". */
    method CompleteTournament(response: Response<Tournament>) returns (calls: seq<TournamentCall>)
      modifies this`tournament, this`message
      ensures !old(CanAct()) ==> calls == [] && tournament == old(tournament) && message == old(message)
      ensures old(CanAct()) ==> calls == [UpdateTournamentCall(TournamentId(), COMPLETED)]
      ensures old(CanAct()) && response.Succeeded? ==>
        tournament == Some(response.data) && message == Some(Message(Success, "Torneo finalizado correctamente"))
      ensures old(CanAct()) && !response.Succeeded? ==>
        tournament == old(tournament) && message == Some(Message(Error, FailureText(response, "Error al finalizar el torneo")))
    {
      if !CanAct() {
        return [];
      }
      calls := [UpdateTournamentCall(TournamentId(), COMPLETED)];
      match response
      case Succeeded(t) =>
        tournament := Some(t);
        message := Some(Message(Success, "Torneo finalizado correctamente"));
      case Rejected(error) =>
        message := Some(Message(Error, if error != "" then error else "Error al finalizar el torneo"));
      case Threw(_) =>
        message := Some(Message(Error, "Error al finalizar el torneo"));
    }

    /** Registering a team, then reloading the registered list. The success
        banner shows even when the reload is refused; a reload that throws
        shows the registration error although the team was registered. */
    method RegisterTeam(teamId: int, response: Response<()>, reload: Response<seq<Team>>) returns (calls: seq<TournamentCall>)
      modifies this`registeredTeams, this`message
      ensures !old(CanAct()) ==> calls == [] && registeredTeams == old(registeredTeams) && message == old(message)
      ensures old(CanAct()) && !response.Succeeded? ==>
        calls == [RegisterTeamCall(TournamentId(), teamId)] && registeredTeams == old(registeredTeams)
        && message == Some(Message(Error, FailureText(response, "Error al inscribir el equipo")))
      ensures old(CanAct()) && response.Succeeded? ==>
        calls == [RegisterTeamCall(TournamentId(), teamId), GetRegisteredTeamsCall(TournamentId())]
        && registeredTeams == (if reload.Succeeded? then reload.data else old(registeredTeams))
        && message == Some(if reload.Threw? then Message(Error, "Error al inscribir el equipo")
                           else Message(Success, "Equipo inscrito correctamente"))
    {
      if !CanAct() {
        return [];
      }
      calls := [RegisterTeamCall(TournamentId(), teamId)];
      match response
      case Succeeded(_) =>
        calls := calls + [GetRegisteredTeamsCall(TournamentId())];
        if reload.Threw? {
          message := Some(Message(Error, "Error al inscribir el equipo"));
          return;
        }
        if reload.Succeeded? {
          registeredTeams := reload.data;
        }
        message := Some(Message(Success, "Equipo inscrito correctamente"));
      case Rejected(error) =>
        message := Some(Message(Error, if error != "" then error else "Error al inscribir el equipo"));
      case Threw(_) =>
        message := Some(Message(Error, "Error al inscribir el equipo"));
    }

    /** Withdrawing a team: on success it leaves the list, the rest keep their order. */
    method UnregisterTeam(teamId: int, response: Response<()>) returns (calls: seq<TournamentCall>)
      modifies this`registeredTeams, this`message
      ensures !old(CanAct()) ==> calls == [] && registeredTeams == old(registeredTeams) && message == old(message)
      ensures old(CanAct()) ==> calls == [UnregisterTeamCall(TournamentId(), teamId)]
      ensures old(CanAct()) && response.Succeeded? ==>
        registeredTeams == RemoveTeam(old(registeredTeams), teamId)
        && message == Some(Message(Success, "Inscripción eliminada correctamente"))
      ensures old(CanAct()) && !response.Succeeded? ==>
        registeredTeams == old(registeredTeams)
        && message == Some(Message(Error, FailureText(response, "Error al eliminar la inscripción")))
    {
      if !CanAct() {
        return [];
      }
      calls := [UnregisterTeamCall(TournamentId(), teamId)];
      match response
      case Succeeded(_) =>
        registeredTeams := RemoveTeam(registeredTeams, teamId);
        message := Some(Message(Success, "Inscripción eliminada correctamente"));
      case Rejected(error) =>
        message := Some(Message(Error, if error != "" then error else "Error al eliminar la inscripción"));
      case Threw(_) =>
        message := Some(Message(Error, "Error al eliminar la inscripción"));
    }

    /** Seeding a team: on success only that team's seed changes. */
    method AssignSeed(teamId: int, seed: Num, response: Response<()>) returns (calls: seq<TournamentCall>)
      modifies this`registeredTeams, this`message
      ensures !old(CanAct()) ==> calls == [] && registeredTeams == old(registeredTeams) && message == old(message)
      ensures old(CanAct()) ==> calls == [AssignSeedCall(TournamentId(), teamId, seed)]
      ensures old(CanAct()) && response.Succeeded? ==>
        registeredTeams == WithSeed(old(registeredTeams), teamId, seed)
        && message == Some(Message(Success, "Semilla asignada correctamente"))
      ensures old(CanAct()) && !response.Succeeded? ==>
        registeredTeams == old(registeredTeams)
        && message == Some(Message(Error, FailureText(response, "Error al asignar la semilla")))
    {
      if !CanAct() {
        return [];
      }
      calls := [AssignSeedCall(TournamentId(), teamId, seed)];
      match response
      case Succeeded(_) =>
        registeredTeams := WithSeed(registeredTeams, teamId, seed);
        message := Some(Message(Success, "Semilla asignada correctamente"));
      case Rejected(error) =>
        message := Some(Message(Error, if error != "" then error else "Error al asignar la semilla"));
      case Threw(_) =>
        message := Some(Message(Error, "Error al asignar la semilla"));
    }

    /** Storing a match result: exactly one call; the match list changes only
        after a confirmed success, and then only the submitted match. */
    method RegisterResult(s: MatchResultForm.ResultSubmission, response: Response<MatchPatch>) returns (call: MatchCall)
      modifies this`matches, this`message
      ensures call == ChooseResultCall(s)
      ensures response.Succeeded? ==>
        matches == MergeMatch(old(matches), s.matchId, response.data)
        && message == Some(Message(Success, "Resultado registrado correctamente"))
      ensures !response.Succeeded? ==>
        matches == old(matches)
        && message == Some(Message(Error, FailureText(response, "Error al registrar el resultado")))
    {
      call := ChooseResultCall(s);
      match response
      case Succeeded(p) =>
        matches := MergeMatch(matches, s.matchId, p);
        message := Some(Message(Success, "Resultado registrado correctamente"));
      case Rejected(error) =>
        message := Some(Message(Error, if error != "" then error else "Error al registrar el resultado"));
      case Threw(_) =>
        message := Some(Message(Error, "Error al registrar el resultado"));
    }
  }
}
