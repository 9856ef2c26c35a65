/** The match detail dialog: round and status labels, and the table of set
    results with the winner of each set. */
module MatchDetails {
  import opened Wrappers
  import opened Text
  import opened Models
  import MatchResultForm
  import TournamentMatches

  /** The round label, counted back from `finalRound`; an absent round or
      round 0 is unknown. */
  function RoundLabel(round: Option<int>, finalRound: int): (name: string)
    ensures !IsTruthy(round) ==> name == "Desconocida"
    ensures IsTruthy(round) ==> (name == "Final" <==> round.value == finalRound)
    ensures IsTruthy(round) ==> (name == "Semifinal" <==> round.value == finalRound - 1)
    ensures IsTruthy(round) ==> (name == "Cuartos de final" <==> round.value == finalRound - 2)
    ensures IsTruthy(round) ==>
      (name == "Ronda " + IntToString(round.value) <==> !(finalRound - 2 <= round.value <= finalRound))
  {
    TournamentMatches.RondaLabel(if round.Some? then round.value else 0);
    assert "Desconocida"[0] == 'D';
    if !IsTruthy(round) then "Desconocida"
    else if round.value == finalRound then "Final"
    else if round.value == finalRound - 1 then "Semifinal"
    else if round.value == finalRound - 2 then "Cuartos de final"
    else "Ronda " + IntToString(round.value)
  }

  /** The bracket tabs and the detail dialog agree on which round is the
      final, for every non-zero round that has matches. */
  lemma FinalNamedAlike(ms: seq<Match>, round: int)
    requires TournamentMatches.HasRound(ms, round) && round != 0
    ensures var rounds := TournamentMatches.Rounds(ms);
      |rounds| > 0 &&
      (TournamentMatches.RoundName(rounds, round) == "Final" <==>
       RoundLabel(Some(round), TournamentMatches.FinalRound(rounds)) == "Final")
  {
    assert round in TournamentMatches.Rounds(ms);
  }

  /** Two known rounds never share a label in the detail dialog. */
  lemma {:induction false} RoundLabelsDistinct(a: int, b: int, finalRound: int)
    requires a != 0 && b != 0
    ensures RoundLabel(Some(a), finalRound) == RoundLabel(Some(b), finalRound) ==> a == b
  {
    if RoundLabel(Some(a), finalRound) == RoundLabel(Some(b), finalRound) && !(finalRound - 2 <= a <= finalRound) {
      var prefix := "Ronda ";
      assert (prefix + IntToString(a))[|prefix|..] == IntToString(a);
      assert (prefix + IntToString(b))[|prefix|..] == IntToString(b);
      IntToStringInjective(a, b);
    }
  }

  /** Below the final the two match views name rounds differently: the
      bracket tabs say "Semifinales", "Cuartos" and "Octavos" where the
      detail dialog says "Semifinal", "Cuartos de final" and "Ronda n". */
  lemma RoundNamesDifferBelowFinal(ms: seq<Match>, round: int)
    requires TournamentMatches.HasRound(ms, round) && round != 0
    ensures var rounds := TournamentMatches.Rounds(ms);
      var final := TournamentMatches.FinalRound(rounds);
      |rounds| > 0 &&
      (round == final - 1 ==>
        TournamentMatches.RoundName(rounds, round) == "Semifinales" && RoundLabel(Some(round), final) == "Semifinal") &&
      (round == final - 2 ==>
        TournamentMatches.RoundName(rounds, round) == "Cuartos" && RoundLabel(Some(round), final) == "Cuartos de final") &&
      (round == final - 3 ==>
        TournamentMatches.RoundName(rounds, round) == "Octavos" && RoundLabel(Some(round), final) == "Ronda " + IntToString(round))
  {
    assert round in TournamentMatches.Rounds(ms);
  }

  /** The status label: absent or "" is unknown; other unknown statuses are
      shown raw. */
  function StatusLabel(status: Option<string>): (name: string)
    ensures !IsTruthyText(status) ==> name == "Desconocido"
    ensures status == Some(COMPLETED) ==> name == "Completado"
    ensures status == Some(SCHEDULED) ==> name == "Programado"
    ensures status == Some(IN_PROGRESS) ==> name == "En progreso"
    ensures IsTruthyText(status) && status.value !in {COMPLETED, SCHEDULED, IN_PROGRESS} ==> name == status.value
  {
    if !IsTruthyText(status) then "Desconocido"
    else if status.value == COMPLETED then "Completado"
    else if status.value == SCHEDULED then "Programado"
    else if status.value == IN_PROGRESS then "En progreso"
    else status.value
  }

  datatype ChipColor = DefaultColor | SuccessColor | PrimaryColor

  function StatusColor(status: Option<string>): (c: ChipColor)
    ensures c == SuccessColor <==> status == Some(COMPLETED)
    ensures c == PrimaryColor <==> status == Some(IN_PROGRESS)
  {
    if !IsTruthyText(status) then DefaultColor
    else if status.value == COMPLETED then SuccessColor
    else if status.value == IN_PROGRESS then PrimaryColor
    else DefaultColor
  }

  /** The side a table row credits with the set: team 1 only when its games
      are strictly more, team 2 otherwise, a drawn set included. */
  function RowWinner(s: SetScore): (side: MatchResultForm.Side)
    ensures side == MatchResultForm.Team1 <==> s.team1 > s.team2
  {
    if s.team1 > s.team2 then MatchResultForm.Team1 else MatchResultForm.Team2
  }

  /** On a decided set the table and the form's live count credit the same
      team. */
  lemma RowWinnerAgreesWithForm(s: SetScore)
    requires s.team1 != s.team2
    ensures MatchResultForm.SetWinner(MatchResultForm.LoadedEntries([s])[0]) == Some(RowWinner(s))
  {
    ParseIntOfIntToString(s.team1);
    ParseIntOfIntToString(s.team2);
  }

  /** A drawn set is credited to nobody by the form but shown as won by team 2
      in the table. */
  lemma DrawnSetShownForTeam2(n: int)
    ensures RowWinner(SetScore(n, n)) == MatchResultForm.Team2
    ensures MatchResultForm.SetWinner(MatchResultForm.LoadedEntries([SetScore(n, n)])[0]).None?
  {
    ParseIntOfIntToString(n);
  }

  /** One row of the sets table. */
  datatype SetRow = SetRow(number: nat, team1: int, team2: int, winner: MatchResultForm.Side)

  /** What the sets area of the dialog shows. */
  datatype SetsView = NothingShown | NotAvailable | ShowError | Table(rows: seq<SetRow>)

  function Rows(sets: seq<SetScore>): (rows: seq<SetRow>)
    ensures |rows| == |sets|
    ensures forall i :: 0 <= i < |sets| ==>
      rows[i] == SetRow(i + 1, sets[i].team1, sets[i].team2, RowWinner(sets[i]))
  {
    seq(|sets|, i requires 0 <= i < |sets| => SetRow(i + 1, sets[i].team1, sets[i].team2, RowWinner(sets[i])))
  }

  /** `renderSetResults`: nothing without stored results, the table for a
      non-empty array (text is decoded first), "No disponible" for an empty
      array or any other JSON value, and an error line for malformed text. */
  function SetsArea(m: Option<Match>, parseJson: string -> MatchResultForm.JsonDecode): (v: SetsView)
    ensures m.None? || m.value.setResults.None? ==> v == NothingShown
    ensures v.Table? ==> |v.rows| > 0
    ensures m.Some? && m.value.setResults == Some(SetsList([])) ==> v == NotAvailable
    ensures m.Some? && m.value.setResults.Some? && m.value.setResults.value.SetsList? && |m.value.setResults.value.sets| > 0 ==>
      v == Table(Rows(m.value.setResults.value.sets))
    ensures m.Some? && m.value.setResults == Some(SetsText("")) ==> v == NothingShown
    ensures m.Some? && m.value.setResults.Some? && m.value.setResults.value.SetsText? && m.value.setResults.value.json != "" ==>
      var decoded := parseJson(m.value.setResults.value.json);
      && (decoded.Malformed? <==> v == ShowError)
      && (decoded.DecodedOther? ==> v == NotAvailable)
      && (decoded.DecodedArray? && |decoded.sets| == 0 ==> v == NotAvailable)
      && (decoded.DecodedArray? && |decoded.sets| > 0 ==> v == Table(Rows(decoded.sets)))
  {
    if m.None? || m.value.setResults.None? || m.value.setResults == Some(SetsText("")) then NothingShown
    else
      var decoded :=
        match m.value.setResults.value
        case SetsList(sets) => MatchResultForm.DecodedArray(sets)
        case SetsText(json) => parseJson(json);
      match decoded
      case Malformed => ShowError
      case DecodedOther => NotAvailable
      case DecodedArray(sets) => if |sets| == 0 then NotAvailable else Table(Rows(sets))
  }

  /** Stored sets show the same area whether the API sent them as an array
      or as JSON text that decodes to that array. */
  lemma TextAndArrayShownAlike(m: Match, json: string, sets: seq<SetScore>, parseJson: string -> MatchResultForm.JsonDecode)
    requires json != "" && parseJson(json) == MatchResultForm.DecodedArray(sets)
    ensures SetsArea(Some(m.(setResults := Some(SetsText(json)))), parseJson)
      == SetsArea(Some(m.(setResults := Some(SetsList(sets)))), parseJson)
  {
  }
}
