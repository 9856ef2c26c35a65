/** The matches card of a tournament: one tab per round, the round names,
    who may register a result, the status chip and winner highlighting, and
    the result and detail dialogs it opens. */
module TournamentMatches {
  import opened Wrappers
  import opened Text
  import opened Models
  import Seqs
  import TournamentInfo
  import MatchResultForm

  predicate StrictlyIncreasing(s: seq<int>)
  {
    forall i, j :: 0 <= i < j < |s| ==> s[i] < s[j]
  }

  predicate HasRound(ms: seq<Match>, round: int)
  {
    exists i :: 0 <= i < |ms| && ms[i].round == round
  }

  function InsertSorted(x: int, s: seq<int>): (r: seq<int>)
    requires StrictlyIncreasing(s)
    ensures StrictlyIncreasing(r)
    ensures forall y :: y in r <==> y in s || y == x
  {
    if s == [] then [x]
    else if x < s[0] then [x] + s
    else if x == s[0] then s
    else
      var rest := InsertSorted(x, s[1..]);
      assert forall k :: 0 <= k < |rest| ==> rest[k] in s[1..] || rest[k] == x;
      [s[0]] + rest
  }

  /** `[...new Set(matches.map(m => m.round))].sort((a, b) => a - b)`: every
      round that has a match, once, in ascending order. */
  function Rounds(ms: seq<Match>): (r: seq<int>)
    ensures StrictlyIncreasing(r)
    ensures forall x :: x in r <==> HasRound(ms, x)
  {
    if ms == [] then []
    else
      var init := ms[..|ms| - 1];
      var r := InsertSorted(ms[|ms| - 1].round, Rounds(init));
      assert forall x :: HasRound(init, x) ==> HasRound(ms, x) by {
        forall x | HasRound(init, x) ensures HasRound(ms, x) {
          var i :| 0 <= i < |init| && init[i].round == x;
          assert ms[i].round == x;
        }
      }
      assert forall x :: HasRound(ms, x) ==> HasRound(init, x) || x == ms[|ms| - 1].round by {
        forall x | HasRound(ms, x) ensures HasRound(init, x) || x == ms[|ms| - 1].round {
          var i :| 0 <= i < |ms| && ms[i].round == x;
          if i < |ms| - 1 { assert init[i].round == x; }
        }
      }
      r
  }

  /** `Math.max(...rounds)` for a non-empty list. */
  function MaxOf(s: seq<int>): (m: int)
    requires |s| > 0
    ensures m in s
    ensures forall i :: 0 <= i < |s| ==> s[i] <= m
  {
    if |s| == 1 then s[0]
    else
      var rest := MaxOf(s[1..]);
      if s[0] >= rest then s[0] else rest
  }

  /** For the sorted round list the maximum is the last round. */
  lemma MaxOfIncreasingIsLast(s: seq<int>)
    requires |s| > 0 && StrictlyIncreasing(s)
    ensures MaxOf(s) == s[|s| - 1]
  {
  }

  /** The tab label of a round, counted back from the highest round. */
  function RoundName(rounds: seq<int>, round: int): (name: string)
    requires |rounds| > 0
    ensures round == MaxOf(rounds) <==> name == "Final"
    ensures round == MaxOf(rounds) - 1 <==> name == "Semifinales"
    ensures round == MaxOf(rounds) - 2 <==> name == "Cuartos"
    ensures round == MaxOf(rounds) - 3 <==> name == "Octavos"
    ensures !(MaxOf(rounds) - 3 <= round <= MaxOf(rounds)) <==> name == "Ronda " + IntToString(round)
  {
    RondaLabel(round);
    var maxRound := MaxOf(rounds);
    if round == maxRound then "Final"
    else if round == maxRound - 1 then "Semifinales"
    else if round == maxRound - 2 then "Cuartos"
    else if round == maxRound - 3 then "Octavos"
    else "Ronda " + IntToString(round)
  }

  /** A generic round label never reads as a named round. */
  lemma RondaLabel(round: int)
    ensures var name := "Ronda " + IntToString(round);
      name[0] == 'R' && name != "Final" && name != "Semifinales" && name != "Cuartos" && name != "Octavos"
      && name != "Semifinal" && name != "Cuartos de final"
  {
    var name := "Ronda " + IntToString(round);
    assert name[0] == 'R';
    assert "Final"[0] == 'F' && "Semifinales"[0] == 'S' && "Cuartos"[0] == 'C' && "Octavos"[0] == 'O';
    assert "Semifinal"[0] == 'S' && "Cuartos de final"[0] == 'C';
  }

  /** No two rounds of a bracket share a tab label. */
  lemma {:induction false} RoundNamesDistinct(rounds: seq<int>, a: int, b: int)
    requires |rounds| > 0
    ensures RoundName(rounds, a) == RoundName(rounds, b) ==> a == b
  {
    if RoundName(rounds, a) == RoundName(rounds, b) && !(MaxOf(rounds) - 3 <= a <= MaxOf(rounds)) {
      var prefix := "Ronda ";
      assert (prefix + IntToString(a))[|prefix|..] == IntToString(a);
      assert (prefix + IntToString(b))[|prefix|..] == IntToString(b);
      IntToStringInjective(a, b);
    }
  }

  /** The final round handed to the detail dialog: the highest round, or 1
      when there are no matches. */
  function FinalRound(rounds: seq<int>): (f: int)
    ensures |rounds| > 0 ==> f in rounds && forall i :: 0 <= i < |rounds| ==> rounds[i] <= f
    ensures |rounds| == 0 ==> f == 1
  {
    if |rounds| > 0 then MaxOf(rounds) else 1
  }

  /** The matches listed under one round tab. */
  function RoundMatches(ms: seq<Match>, round: int): (r: seq<Match>)
    ensures forall i :: 0 <= i < |r| ==> r[i].round == round
    ensures forall i :: 0 <= i < |ms| && ms[i].round == round ==> ms[i] in r
    ensures Seqs.IsSubsequence(r, ms)
  {
    Seqs.Filter(ms, (m: Match) => m.round == round)
  }

  /** Every match is listed under exactly one tab: the tab of its own round. */
  lemma EachMatchUnderOneTab(ms: seq<Match>, i: nat)
    requires i < |ms|
    ensures exists k :: 0 <= k < |Rounds(ms)| && Rounds(ms)[k] == ms[i].round && ms[i] in RoundMatches(ms, Rounds(ms)[k])
    ensures forall k :: 0 <= k < |Rounds(ms)| && Rounds(ms)[k] != ms[i].round ==> ms[i] !in RoundMatches(ms, Rounds(ms)[k])
  {
    assert HasRound(ms, ms[i].round);
    var k :| 0 <= k < |Rounds(ms)| && Rounds(ms)[k] == ms[i].round;
    assert ms[i] in RoundMatches(ms, Rounds(ms)[k]);
  }

  /** The signed-in user plays in one of the two teams of the match. */
  predicate PlaysIn(user: User, m: Match)
  {
    (m.team1.Some? && IsMember(m.team1.value, user.id)) || (m.team2.Some? && IsMember(m.team2.value, user.id))
  }

  /** `canRegisterResult`: managers, and signed-in players of either team. */
  predicate CanRegisterResult(user: Option<User>, t: Tournament, m: Match)
  {
    TournamentInfo.CanManageTournament(user, t) || (user.Some? && PlaysIn(user.value, m))
  }

  /** The "Registrar" button of a row: only while no winner is recorded. */
  predicate RegisterButtonShown(user: Option<User>, t: Tournament, m: Match)
  {
    !IsTruthy(m.winnerId) && CanRegisterResult(user, t, m)
  }

  /** A visitor never registers a result, and a decided match offers no
      "Registrar" to anybody. */
  lemma RegisterButtonGuards(user: Option<User>, t: Tournament, m: Match)
    ensures user.None? ==> !RegisterButtonShown(user, t, m)
    ensures IsTruthy(m.winnerId) ==> !RegisterButtonShown(user, t, m)
  {
  }

  /** The status chip of a row: a recorded winner wins over the status text. */
  function MatchStatusChip(m: Match): (chip: string)
    ensures IsTruthy(m.winnerId) ==> chip == "Completado"
    ensures !IsTruthy(m.winnerId) && m.status == IN_PROGRESS ==> chip == "En progreso"
    ensures !IsTruthy(m.winnerId) && m.status != IN_PROGRESS ==> chip == "Pendiente"
  {
    if IsTruthy(m.winnerId) then "Completado"
    else if m.status == IN_PROGRESS then "En progreso"
    else "Pendiente"
  }

  /** Team 1 is shown with the trophy: a winner is recorded and both scores
      are present with team 1's greater. */
  predicate Team1Highlighted(m: Match)
  {
    IsTruthy(m.winnerId) && m.team1Score.Some? && m.team2Score.Some? && m.team1Score.value > m.team2Score.value
  }

  predicate Team2Highlighted(m: Match)
  {
    IsTruthy(m.winnerId) && m.team1Score.Some? && m.team2Score.Some? && m.team2Score.value > m.team1Score.value
  }

  /** At most one team carries the trophy, and only in a decided match. */
  lemma AtMostOneTrophy(m: Match)
    ensures !(Team1Highlighted(m) && Team2Highlighted(m))
    ensures (Team1Highlighted(m) || Team2Highlighted(m)) ==> IsTruthy(m.winnerId)
  {
  }

  /** The card's local state: the selected tab, the page, and its two dialogs. */
  class MatchesCard {
    var tabValue: int
    var page: int
    var resultDialogOpen: bool
    var detailDialogOpen: bool
    var selectedMatch: Option<Match>
    var detailedMatch: Option<Match>
    var loadingMatchDetails: bool

    constructor ()
      ensures tabValue == 0 && page == 1 && !resultDialogOpen && !detailDialogOpen
      ensures selectedMatch == None && detailedMatch == None && !loadingMatchDetails
    {
      tabValue, page := 0, 1;
      resultDialogOpen, detailDialogOpen := false, false;
      selectedMatch, detailedMatch := None, None;
      loadingMatchDetails := false;
    }

    method TabChange(value: int)
      modifies this`tabValue
      ensures tabValue == value
    {
      tabValue := value;
    }

    method PageChange(value: int)
      modifies this`page
      ensures page == value
    {
      page := value;
    }

    method OpenResultDialog(m: Match)
      modifies this`selectedMatch, this`resultDialogOpen
      ensures selectedMatch == Some(m) && resultDialogOpen
    {
      selectedMatch := Some(m);
      resultDialogOpen := true;
    }

    method CloseResultDialog()
      modifies this`selectedMatch, this`resultDialogOpen
      ensures selectedMatch == None && !resultDialogOpen
    {
      resultDialogOpen := false;
      selectedMatch := None;
    }

    /** The form's result goes to the page unchanged, and the dialog closes. */
    method SubmitResult(s: MatchResultForm.ResultSubmission) returns (forwarded: MatchResultForm.ResultSubmission)
      modifies this`selectedMatch, this`resultDialogOpen
      ensures forwarded == s
      ensures selectedMatch == None && !resultDialogOpen
    {
      forwarded := s;
      CloseResultDialog();
    }

    /** "Detalles": fetches the match; the dialog shows it when the fetch
        succeeds, and the spinner stops in every case. */
    method OpenDetailDialog(m: Match, response: Response<Match>) returns (fetchedId: int)
      modifies this`selectedMatch, this`detailDialogOpen, this`loadingMatchDetails, this`detailedMatch
      ensures fetchedId == m.id
      ensures selectedMatch == Some(m) && detailDialogOpen && !loadingMatchDetails
      ensures detailedMatch == if response.Succeeded? then Some(response.data) else old(detailedMatch)
    {
      selectedMatch := Some(m);
      detailDialogOpen := true;
      loadingMatchDetails := true;
      fetchedId := m.id;
      if response.Succeeded? {
        detailedMatch := Some(response.data);
      }
      loadingMatchDetails := false;
    }

    method CloseDetailDialog()
      modifies this`selectedMatch, this`detailDialogOpen, this`detailedMatch
      ensures !detailDialogOpen && selectedMatch == None && detailedMatch == None
    {
      detailDialogOpen := false;
      selectedMatch := None;
      detailedMatch := None;
    }
  }
}
