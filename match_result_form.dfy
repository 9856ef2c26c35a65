/** The dialog in which a match result is typed in, set by set, and then
    validated before it is handed to the page that sends it to the API. */
module MatchResultForm {
  import opened Wrappers
  import opened Text
  import opened Models
  import Seqs

  /** One row of the form: the games of each team as typed (digits or ""). */
  datatype SetEntry = SetEntry(team1: string, team2: string)

  const EMPTY_SET := SetEntry("", "")

  datatype Side = Team1 | Team2

  predicate IsFilled(e: SetEntry) { e.team1 != "" && e.team2 != "" }

  function FieldOf(e: SetEntry, side: Side): string
  {
    match side
    case Team1 => e.team1
    case Team2 => e.team2
  }

  function WithField(e: SetEntry, side: Side, value: string): (r: SetEntry)
    ensures FieldOf(r, side) == value
    ensures side == Team1 ==> r.team2 == e.team2
    ensures side == Team2 ==> r.team1 == e.team1
  {
    match side
    case Team1 => e.(team1 := value)
    case Team2 => e.(team2 := value)
  }

  /** Who takes a row in the live count: only a row with both fields filled,
      and only by a strictly greater parsed score (a draw, or a NaN, scores
      for nobody). */
  function SetWinner(e: SetEntry): (w: Option<Side>)
    ensures w == Some(Team1) <==> IsFilled(e) && Gt(ParseInt(e.team1), ParseInt(e.team2))
    ensures w == Some(Team2) <==> IsFilled(e) && Gt(ParseInt(e.team2), ParseInt(e.team1))
  {
    if !IsFilled(e) then None
    else if Gt(ParseInt(e.team1), ParseInt(e.team2)) then Some(Team1)
    else if Gt(ParseInt(e.team2), ParseInt(e.team1)) then Some(Team2)
    else None
  }

  /** The number of rows won by `side`. */
  function SetsWon(sets: seq<SetEntry>, side: Side): (n: nat)
    ensures n <= |sets|
  {
    if sets == [] then 0
    else (if SetWinner(sets[0]) == Some(side) then 1 else 0) + SetsWon(sets[1..], side)
  }

  /** The rows with both fields filled, in order (`validSets`). */
  function FilledSets(sets: seq<SetEntry>): seq<SetEntry>
  {
    Seqs.Filter(sets, IsFilled)
  }

  /** The live count: the effect's `forEach` over the rows. */
  method CountSetsWon(sets: seq<SetEntry>) returns (team1Sets: nat, team2Sets: nat)
    ensures team1Sets == SetsWon(sets, Team1) && team2Sets == SetsWon(sets, Team2)
  {
    team1Sets, team2Sets := 0, 0;
    var i := 0;
    while i < |sets|
      invariant 0 <= i <= |sets|
      invariant team1Sets + SetsWon(sets[i..], Team1) == SetsWon(sets, Team1)
      invariant team2Sets + SetsWon(sets[i..], Team2) == SetsWon(sets, Team2)
    {
      SetsWonStep(sets, i, Team1);
      SetsWonStep(sets, i, Team2);
      var row := sets[i];
      if row.team1 != "" && row.team2 != "" {
        var score1 := ParseInt(row.team1);
        var score2 := ParseInt(row.team2);
        if Gt(score1, score2) {
          team1Sets := team1Sets + 1;
        } else if Gt(score2, score1) {
          team2Sets := team2Sets + 1;
        }
      }
      i := i + 1;
    }
  }

  /** The count of a suffix is its first row's point plus the rest. */
  lemma SetsWonStep(sets: seq<SetEntry>, i: nat, side: Side)
    requires i < |sets|
    ensures SetsWon(sets[i..], side) == (if SetWinner(sets[i]) == Some(side) then 1 else 0) + SetsWon(sets[i + 1..], side)
  {
    assert sets[i..][1..] == sets[i + 1..];
  }

  /** Only filled rows can be won, and no row is won twice. */
  lemma {:induction false} SetsWonWithinFilled(sets: seq<SetEntry>)
    ensures SetsWon(sets, Team1) + SetsWon(sets, Team2) <= |FilledSets(sets)|
  {
    if sets != [] {
      SetsWonWithinFilled(sets[1..]);
    }
  }

  /** Rows left half empty do not change the count. */
  lemma {:induction false} UnfilledRowsIgnored(sets: seq<SetEntry>, side: Side)
    ensures SetsWon(FilledSets(sets), side) == SetsWon(sets, side)
  {
    if sets != [] {
      UnfilledRowsIgnored(sets[1..], side);
      if IsFilled(sets[0]) {
        assert ([sets[0]] + FilledSets(sets[1..]))[1..] == FilledSets(sets[1..]);
      }
    }
  }

  /** A row added at the end adds exactly its own point. */
  lemma {:induction false} SetsWonAppend(sets: seq<SetEntry>, e: SetEntry, side: Side)
    ensures SetsWon(sets + [e], side) == SetsWon(sets, side) + (if SetWinner(e) == Some(side) then 1 else 0)
  {
    if sets != [] {
      assert (sets + [e])[1..] == sets[1..] + [e];
      SetsWonAppend(sets[1..], e, side);
    }
  }

  /** Editing one row changes the count by that row's point only. */
  lemma {:induction false} SetsWonUpdate(sets: seq<SetEntry>, index: nat, e: SetEntry, side: Side)
    requires index < |sets|
    ensures SetsWon(sets[index := e], side)
         == SetsWon(sets, side) - (if SetWinner(sets[index]) == Some(side) then 1 else 0)
                                + (if SetWinner(e) == Some(side) then 1 else 0)
  {
    if index > 0 {
      assert sets[index := e][1..] == sets[1..][index - 1 := e];
      SetsWonUpdate(sets[1..], index - 1, e, side);
    } else {
      assert sets[index := e][1..] == sets[1..];
    }
  }

  /** The team the form declares the winner: the one with more sets, when
      the match carries that team. */
  function DetermineWinnerId(m: Option<Match>, score1: int, score2: int): (w: Option<int>)
    ensures w.Some? <==> m.Some? && ((score1 > score2 && m.value.team1.Some?) || (score2 > score1 && m.value.team2.Some?))
    ensures w.Some? && score1 > score2 ==> w.value == m.value.team1.value.id
    ensures w.Some? && score2 > score1 ==> w.value == m.value.team2.value.id
  {
    if m.None? then None
    else if score1 > score2 && m.value.team1.Some? then Some(m.value.team1.value.id)
    else if score2 > score1 && m.value.team2.Some? then Some(m.value.team2.value.id)
    else None
  }

  /** One set as sent to the API: both scores through parseInt. */
  datatype ParsedSet = ParsedSet(team1: Num, team2: Num)

  /** `formattedSets`: the filled rows, in order, parsed. */
  function FormattedSets(sets: seq<SetEntry>): (r: seq<ParsedSet>)
    ensures |r| == |FilledSets(sets)|
    ensures forall i :: 0 <= i < |r| ==>
      r[i] == ParsedSet(ParseInt(FilledSets(sets)[i].team1), ParseInt(FilledSets(sets)[i].team2))
  {
    var filled := FilledSets(sets);
    seq(|filled|, i requires 0 <= i < |filled| => ParsedSet(ParseInt(filled[i].team1), ParseInt(filled[i].team2)))
  }

  /** The six values the form hands to `onSubmit`. */
  datatype ResultSubmission = ResultSubmission(
    matchId: int, scoreTeam1: int, scoreTeam2: int,
    setResults: seq<ParsedSet>, winnerId: Option<int>, status: string)

  datatype SubmitOutcome = NotSent | Invalid(message: string) | Sent(submission: ResultSubmission)

  const NO_SETS_ERROR := "Debe ingresar al menos un set con resultados válidos"
  const NO_CLEAR_WINNER_ERROR := "Para un partido completado, debe haber un ganador claro (un equipo debe ganar más sets)"
  const NO_WINNER_ID_ERROR := "No se pudo determinar un ganador. Verifica que ambos equipos tengan IDs válidos."

  /** What pressing "Guardar" decides, from the match, the rows, the live
      scores and the chosen status. */
  function CheckSubmission(m: Option<Match>, sets: seq<SetEntry>, score1: int, score2: int, status: string): (o: SubmitOutcome)
    ensures o.NotSent? <==> m.None?
    ensures o == Invalid(NO_SETS_ERROR) <==>
      m.Some? && |FilledSets(sets)| == 0 && status != SCHEDULED && status != CANCELLED
    ensures o == Invalid(NO_CLEAR_WINNER_ERROR) <==>
      m.Some? && (|FilledSets(sets)| > 0 || status == SCHEDULED || status == CANCELLED)
      && status == COMPLETED && score1 == score2
    ensures o == Invalid(NO_WINNER_ID_ERROR) <==>
      m.Some? && (|FilledSets(sets)| > 0 || status == SCHEDULED || status == CANCELLED)
      && status == COMPLETED && score1 != score2 && !IsTruthy(DetermineWinnerId(m, score1, score2))
    ensures o.Invalid? ==> o.message in {NO_SETS_ERROR, NO_CLEAR_WINNER_ERROR, NO_WINNER_ID_ERROR}
    ensures o.Sent? <==>
      m.Some? && (|FilledSets(sets)| > 0 || status == SCHEDULED || status == CANCELLED)
      && (status == COMPLETED ==> score1 != score2 && IsTruthy(DetermineWinnerId(m, score1, score2)))
    ensures o.Sent? ==> o.submission == ResultSubmission(m.value.id, score1, score2, FormattedSets(sets), o.submission.winnerId, status)
    ensures o.Sent? && status == COMPLETED ==>
      score1 != score2 && IsTruthy(o.submission.winnerId) && o.submission.winnerId == DetermineWinnerId(m, score1, score2)
    ensures o.Sent? && status != COMPLETED ==> o.submission.winnerId.None?
  {
    if m.None? then NotSent
    else if |FilledSets(sets)| == 0 && status != SCHEDULED && status != CANCELLED then Invalid(NO_SETS_ERROR)
    else
      var formatted := FormattedSets(sets);
      if status == COMPLETED then
        if score1 == score2 then Invalid(NO_CLEAR_WINNER_ERROR)
        else
          var winnerId := DetermineWinnerId(m, score1, score2);
          if !IsTruthy(winnerId) then Invalid(NO_WINNER_ID_ERROR)
          else Sent(ResultSubmission(m.value.id, score1, score2, formatted, winnerId, status))
      else Sent(ResultSubmission(m.value.id, score1, score2, formatted, None, status))
  }

  /** With live scores, a completed result always names the team that won
      more sets. */
  lemma CompletedResultNamesSetWinner(m: Match, sets: seq<SetEntry>)
    requires CheckSubmission(Some(m), sets, SetsWon(sets, Team1), SetsWon(sets, Team2), COMPLETED).Sent?
    ensures var w := CheckSubmission(Some(m), sets, SetsWon(sets, Team1), SetsWon(sets, Team2), COMPLETED).submission.winnerId;
      (SetsWon(sets, Team1) > SetsWon(sets, Team2) && w == Some(m.team1.value.id)) ||
      (SetsWon(sets, Team2) > SetsWon(sets, Team1) && w == Some(m.team2.value.id))
  {
  }

  /** One set each: a completed result is refused for want of a clear winner. */
  lemma {:induction false} TiedMatchRefused(m: Match)
    ensures var sets := [SetEntry("6", "4"), SetEntry("3", "6")];
      SetsWon(sets, Team1) == 1 && SetsWon(sets, Team2) == 1 &&
      CheckSubmission(Some(m), sets, 1, 1, COMPLETED) == Invalid(NO_CLEAR_WINNER_ERROR)
  {
    var sets := [SetEntry("6", "4"), SetEntry("3", "6")];
    ParseIntOneDigit('6'); ParseIntOneDigit('4'); ParseIntOneDigit('3');
    assert sets[1..] == [SetEntry("3", "6")];
    assert sets[1..][1..] == [];
  }

  /** The three rows of a 6-3, 4-6, 6-2 match. */
  function ThreeSetRows(): seq<SetEntry>
  {
    [SetEntry("6", "3"), SetEntry("4", "6"), SetEntry("6", "2")]
  }

  /** The live count of those rows: two sets to one. */
  lemma ThreeSetRowsCount()
    ensures SetsWon(ThreeSetRows(), Team1) == 2 && SetsWon(ThreeSetRows(), Team2) == 1
  {
    var sets := ThreeSetRows();
    ParseIntOneDigit('6'); ParseIntOneDigit('4'); ParseIntOneDigit('3'); ParseIntOneDigit('2');
    assert sets[1..] == [SetEntry("4", "6"), SetEntry("6", "2")];
    assert sets[1..][1..] == [SetEntry("6", "2")];
    assert sets[1..][1..][1..] == [];
  }

  /** All three rows are filled. */
  lemma ThreeSetRowsFilled()
    ensures FilledSets(ThreeSetRows()) == ThreeSetRows()
  {
    var sets := ThreeSetRows();
    assert IsFilled(sets[0]) && IsFilled(sets[1]) && IsFilled(sets[2]);
    Seqs.FilterKeepsAll(sets, IsFilled);
  }

  /** The digits the three rows hold. */
  lemma ThreeSetDigits()
    ensures ParseInt("2") == Int(2) && ParseInt("3") == Int(3) && ParseInt("4") == Int(4) && ParseInt("6") == Int(6)
  {
    ParseIntOneDigit('2'); ParseIntOneDigit('3'); ParseIntOneDigit('4'); ParseIntOneDigit('6');
  }

  /** The three rows, formatted, before their texts are read as numbers. */
  lemma ThreeSetRowsParsed()
    ensures FormattedSets(ThreeSetRows()) ==
      [ParsedSet(ParseInt("6"), ParseInt("3")), ParsedSet(ParseInt("4"), ParseInt("6")), ParsedSet(ParseInt("6"), ParseInt("2"))]
  {
    ThreeSetRowsFilled();
  }

  /** The three rows parse to their digits. */
  lemma ThreeSetRowsFormatted()
    ensures FormattedSets(ThreeSetRows()) == [ParsedSet(Int(6), Int(3)), ParsedSet(Int(4), Int(6)), ParsedSet(Int(6), Int(2))]
  {
    ThreeSetRowsParsed();
    ThreeSetDigits();
  }

  /** 6-3, 4-6, 6-2 completed: two sets to one, won by team1. */
  lemma {:induction false} ThreeSetWinForTeam1(m: Match)
    requires m.team1.Some? && m.team1.value.id != 0
    ensures var sets := [SetEntry("6", "3"), SetEntry("4", "6"), SetEntry("6", "2")];
      SetsWon(sets, Team1) == 2 && SetsWon(sets, Team2) == 1 &&
      CheckSubmission(Some(m), sets, 2, 1, COMPLETED) == Sent(ResultSubmission(m.id, 2, 1,
        [ParsedSet(Int(6), Int(3)), ParsedSet(Int(4), Int(6)), ParsedSet(Int(6), Int(2))],
        Some(m.team1.value.id), COMPLETED))
  {
    ThreeSetRowsCount();
    ThreeSetRowsFormatted();
    assert |FilledSets(ThreeSetRows())| == 3;
    assert DetermineWinnerId(Some(m), 2, 1) == Some(m.team1.value.id);
  }

  /** A single half-typed set in progress is refused: no row is complete. */
  lemma {:induction false} PartialSetInProgressRefused(m: Match)
    ensures var sets := [SetEntry("6", "")];
      SetsWon(sets, Team1) == 0 && SetsWon(sets, Team2) == 0 &&
      CheckSubmission(Some(m), sets, 0, 0, IN_PROGRESS) == Invalid(NO_SETS_ERROR)
  {
    var sets := [SetEntry("6", "")];
    assert sets[1..] == [];
    assert FilledSets(sets) == [];
    assert IN_PROGRESS[0] != SCHEDULED[0] && IN_PROGRESS[0] != CANCELLED[0];
  }

  /** A finished set plus a half-typed one in progress: sent with the finished
      set only and no winner. */
  lemma {:induction false} PartialSetBesideFinishedOne(m: Match)
    ensures var sets := [SetEntry("6", "3"), SetEntry("6", "")];
      SetsWon(sets, Team1) == 1 && SetsWon(sets, Team2) == 0 &&
      CheckSubmission(Some(m), sets, 1, 0, IN_PROGRESS)
        == Sent(ResultSubmission(m.id, 1, 0, [ParsedSet(Int(6), Int(3))], None, IN_PROGRESS))
  {
    var sets := [SetEntry("6", "3"), SetEntry("6", "")];
    ParseIntOneDigit('6'); ParseIntOneDigit('3');
    assert sets[1..] == [SetEntry("6", "")];
    assert sets[1..][1..] == [];
    assert FilledSets(sets) == [SetEntry("6", "3")];
    assert IN_PROGRESS[0] != COMPLETED[0] && IN_PROGRESS[0] != SCHEDULED[0] && IN_PROGRESS[0] != CANCELLED[0];
  }

  /** "Guardar" is disabled for a scheduled match once any field holds text. */
  predicate SubmitDisabled(status: string, sets: seq<SetEntry>)
  {
    status == SCHEDULED && exists i :: 0 <= i < |sets| && (sets[i].team1 != "" || sets[i].team2 != "")
  }

  /** The delete button of a row is disabled while only one row is left. */
  predicate RemoveDisabled(sets: seq<SetEntry>) { |sets| <= 1 }

  /** A row with a field left empty is not a filled row. */
  lemma NoTextNoFilledSets(sets: seq<SetEntry>)
    requires forall i :: 0 <= i < |sets| ==> sets[i].team1 == "" && sets[i].team2 == ""
    ensures FilledSets(sets) == [] && FormattedSets(sets) == []
  {
    assert forall i :: 0 <= i < |sets| ==> !IsFilled(sets[i]);
  }

  /** Whenever "Guardar" can be pressed on a scheduled match, the form is
      sent, with no sets and no winner; once any field holds text it cannot
      be pressed at all. */
  lemma {:induction false} ScheduledSubmitSendsNoSets(m: Match, sets: seq<SetEntry>, score1: int, score2: int)
    requires !SubmitDisabled(SCHEDULED, sets)
    ensures CheckSubmission(Some(m), sets, score1, score2, SCHEDULED)
      == Sent(ResultSubmission(m.id, score1, score2, [], None, SCHEDULED))
  {
    NoTextNoFilledSets(sets);
    assert SCHEDULED[0] != COMPLETED[0];
  }

  /** The outcome of `JSON.parse` on stored set results: an array of sets,
      some other JSON value, or a syntax error. */
  datatype JsonDecode = DecodedArray(sets: seq<SetScore>) | DecodedOther | Malformed

  /** Stored sets shown as text: `set.team1.toString()`. */
  function LoadedEntries(stored: seq<SetScore>): (r: seq<SetEntry>)
    ensures |r| == |stored|
    ensures forall i :: 0 <= i < |r| ==> r[i] == SetEntry(IntToString(stored[i].team1), IntToString(stored[i].team2))
  {
    seq(|stored|, i requires 0 <= i < |stored| => SetEntry(IntToString(stored[i].team1), IntToString(stored[i].team2)))
  }

  /** Stored results loaded into the form and submitted untouched reach the
      API unchanged. */
  lemma {:induction false} LoadedSetsRoundTrip(stored: seq<SetScore>)
    ensures FormattedSets(LoadedEntries(stored)) ==
      seq(|stored|, i requires 0 <= i < |stored| => ParsedSet(Int(stored[i].team1), Int(stored[i].team2)))
  {
    var entries := LoadedEntries(stored);
    Seqs.FilterKeepsAll(entries, IsFilled);
    assert FilledSets(entries) == entries;
    var r := FormattedSets(entries);
    forall i | 0 <= i < |stored|
      ensures r[i] == ParsedSet(Int(stored[i].team1), Int(stored[i].team2))
    {
      assert r[i] == ParsedSet(ParseInt(entries[i].team1), ParseInt(entries[i].team2));
      ParseIntOfIntToString(stored[i].team1);
      ParseIntOfIntToString(stored[i].team2);
    }
  }

  /** What opening the dialog does to the rows and scores. */
  datatype LoadAction = ResetRows | KeepRows | FillRows(entries: seq<SetEntry>, score1: int, score2: int)

  /** Stored results are reloaded only when they are non-empty JSON text, both
      score aliases are present and the text decodes to an array; text that
      decodes to something else leaves the rows as they were. An already
      decoded array fails to re-parse, so it resets the form. */
  function LoadFor(m: Match, parseJson: string -> JsonDecode): (a: LoadAction)
    ensures a.FillRows? ==>
      && m.setResults.Some? && m.setResults.value.SetsText? && m.setResults.value.json != ""
      && m.scoreTeam1.Some? && m.scoreTeam2.Some?
      && parseJson(m.setResults.value.json).DecodedArray?
      && a == FillRows(LoadedEntries(parseJson(m.setResults.value.json).sets), m.scoreTeam1.value, m.scoreTeam2.value)
    ensures a.KeepRows? ==> m.setResults.Some? && m.setResults.value.SetsText? && parseJson(m.setResults.value.json).DecodedOther?
    ensures m.setResults.None? || m.setResults.value.SetsList? || m.scoreTeam1.None? || m.scoreTeam2.None? ==> a.ResetRows?
  {
    if m.setResults.Some? && m.setResults.value != SetsText("") && m.scoreTeam1.Some? && m.scoreTeam2.Some? then
      match m.setResults.value
      case SetsList(_) => ResetRows
      case SetsText(json) =>
        match parseJson(json)
        case DecodedArray(stored) => FillRows(LoadedEntries(stored), m.scoreTeam1.value, m.scoreTeam2.value)
        case DecodedOther => KeepRows
        case Malformed => ResetRows
    else ResetRows
  }

  class ResultForm {
    var sets: seq<SetEntry>
    var scoreTeam1: int
    var scoreTeam2: int
    var status: string
    var validationError: string
    /** The match the dialog was opened for (a prop of the component). */
    var current: Option<Match>

    /** The score state always equals the live count of the rows, except
        while the row list is empty (the counting effect then returns early). */
    predicate Valid()
      reads this
    {
      |sets| > 0 ==> scoreTeam1 == SetsWon(sets, Team1) && scoreTeam2 == SetsWon(sets, Team2)
    }

    constructor ()
      ensures Valid()
      ensures sets == [EMPTY_SET] && scoreTeam1 == 0 && scoreTeam2 == 0
      ensures status == IN_PROGRESS && validationError == "" && current == None
    {
      sets := [EMPTY_SET];
      scoreTeam1, scoreTeam2 := 0, 0;
      status := IN_PROGRESS;
      validationError := "";
      current := None;
    }

    /** The effect that recounts the sets after every change of the rows. */
    method Recount()
      modifies this`scoreTeam1, this`scoreTeam2
      ensures Valid()
      ensures |sets| == 0 ==> scoreTeam1 == old(scoreTeam1) && scoreTeam2 == old(scoreTeam2)
    {
      if |sets| == 0 {
        return;
      }
      var team1Sets, team2Sets := CountSetsWon(sets);
      scoreTeam1, scoreTeam2 := team1Sets, team2Sets;
    }

    /** The effect that runs when the dialog opens for match `m`. */
    method Open(m: Match, parseJson: string -> JsonDecode)
      requires Valid()
      modifies this
      ensures Valid()
      ensures current == Some(m) && validationError == ""
      ensures status == (if m.status != "" then m.status else IN_PROGRESS)
      ensures sets == match LoadFor(m, parseJson)
        case ResetRows => [EMPTY_SET]
        case KeepRows => old(sets)
        case FillRows(entries, _, _) => entries
      ensures LoadFor(m, parseJson).FillRows? && sets == [] ==>
        scoreTeam1 == LoadFor(m, parseJson).score1 && scoreTeam2 == LoadFor(m, parseJson).score2
      ensures LoadFor(m, parseJson).KeepRows? ==> scoreTeam1 == old(scoreTeam1) && scoreTeam2 == old(scoreTeam2)
    {
      current := Some(m);
      validationError := "";
      status := if m.status != "" then m.status else IN_PROGRESS;
      var action := LoadFor(m, parseJson);
      match action
      case ResetRows =>
        sets := [EMPTY_SET];
        scoreTeam1, scoreTeam2 := 0, 0;
        Recount();
      case KeepRows =>
      case FillRows(entries, score1, score2) =>
        sets := entries;
        scoreTeam1, scoreTeam2 := score1, score2;
        Recount();
    }

    /** "Añadir set": one more empty row; the count is unchanged. */
    method AddSet()
      requires Valid()
      modifies this`sets, this`scoreTeam1, this`scoreTeam2
      ensures Valid()
      ensures sets == old(sets) + [EMPTY_SET]
      ensures |old(sets)| > 0 ==> scoreTeam1 == old(scoreTeam1) && scoreTeam2 == old(scoreTeam2)
    {
      SetsWonAppend(sets, EMPTY_SET, Team1);
      SetsWonAppend(sets, EMPTY_SET, Team2);
      sets := sets + [EMPTY_SET];
      Recount();
    }

    /** Deleting row `index` (`splice(index, 1)`): ignored while one row is
        left, and a no-op for an index past the end. */
    method RemoveSet(index: nat)
      requires Valid()
      modifies this`sets, this`scoreTeam1, this`scoreTeam2
      ensures Valid()
      ensures sets == if |old(sets)| > 1 && index < |old(sets)|
        then old(sets)[..index] + old(sets)[index + 1..] else old(sets)
      ensures |old(sets)| >= 1 ==> |sets| >= 1
      ensures RemoveDisabled(old(sets)) ==> sets == old(sets)
      ensures !RemoveDisabled(old(sets)) && index < |old(sets)| ==> |sets| == |old(sets)| - 1
    {
      if |sets| > 1 {
        if index < |sets| {
          sets := sets[..index] + sets[index + 1..];
        }
        Recount();
      }
    }

    /** Typing `value` into one field of row `index`: anything but "" or a
        run of digits is refused and leaves the form as it was. */
    method SetChange(index: nat, side: Side, value: string)
      requires Valid()
      requires index < |sets|
      modifies this`sets, this`scoreTeam1, this`scoreTeam2
      ensures Valid()
      ensures value != "" && !IsDigits(value) ==> sets == old(sets)
      ensures value == "" || IsDigits(value) ==> sets == old(sets)[index := WithField(old(sets)[index], side, value)]
    {
      if value != "" && !IsDigits(value) {
        return;
      }
      sets := sets[index := WithField(sets[index], side, value)];
      Recount();
    }

    method SetStatus(value: string)
      modifies this`status
      ensures status == value
    {
      status := value;
    }

    /** Pressing "Guardar": an invalid result shows its message and sends nothing. */
    method Submit() returns (outcome: SubmitOutcome)
      modifies this`validationError
      ensures outcome == CheckSubmission(current, sets, scoreTeam1, scoreTeam2, status)
      ensures validationError == if outcome.Invalid? then outcome.message else old(validationError)
    {
      outcome := CheckSubmission(current, sets, scoreTeam1, scoreTeam2, status);
      if outcome.Invalid? {
        validationError := outcome.message;
      }
    }
  }
}
