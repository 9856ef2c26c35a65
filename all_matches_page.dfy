/** The "Partidos" page that loads one page of matches and filters it on the
    client by status tab and by tournament. */
module AllMatchesPage {
  import opened Wrappers
  import opened Text
  import opened Models
  import opened MatchLists
  import Seqs

  const LOAD_FAILED := "No se pudieron cargar los partidos"
  const LOAD_ERROR := "Error al cargar los partidos"

  /** The status tabs: 1 upcoming (`pending`), 2 `in_progress`, 3 `completed`;
      tab 0, and any other index, shows every match. */
  predicate TabKeeps(tab: int, m: Match)
  {
    if tab == 1 then m.status == PENDING
    else if tab == 2 then m.status == IN_PROGRESS
    else if tab == 3 then m.status == COMPLETED
    else true
  }

  predicate IsPending(m: Match) { m.status == PENDING }
  predicate IsInProgress(m: Match) { m.status == IN_PROGRESS }
  predicate IsCompleted(m: Match) { m.status == COMPLETED }

  /** Whether the page lists a match, as a filter condition. */
  function Shown(tab: int, filter: string): Match -> bool
  {
    m => TabKeeps(tab, m) && TournamentKeeps(filter, m)
  }

  /** The matches the page lists for a tab and a tournament filter. */
  function VisibleMatches(ms: seq<Match>, tab: int, filter: string): (r: seq<Match>)
    ensures Seqs.IsSubsequence(r, ms)
    ensures forall i :: 0 <= i < |r| ==> TabKeeps(tab, r[i]) && TournamentKeeps(filter, r[i])
    ensures forall i :: 0 <= i < |ms| && TabKeeps(tab, ms[i]) && TournamentKeeps(filter, ms[i]) ==> ms[i] in r
  {
    Seqs.Filter(ms, Shown(tab, filter))
  }

  /** The list after the tab step: the tab's condition alone. */
  lemma {:induction false} TabStep(ms: seq<Match>, tab: int, p: Match -> bool)
    requires forall m :: p(m) == TabKeeps(tab, m)
    ensures Seqs.Filter(ms, p) == Seqs.Filter(ms, Shown(tab, ""))
  {
    Seqs.FilterCongruent(ms, p, Shown(tab, ""));
  }

  /** Narrowing the tab's list by the tournament gives the listed matches. */
  lemma {:induction false} TournamentStep(ms: seq<Match>, tab: int, filter: string)
    requires filter != ""
    ensures Seqs.Filter(Seqs.Filter(ms, Shown(tab, "")), m => TournamentKeeps(filter, m)) == VisibleMatches(ms, tab, filter)
  {
    var q := m => TournamentKeeps(filter, m);
    Seqs.FilterTwice(ms, Shown(tab, ""), q, Shown(tab, filter));
  }

  /** The filter effect's computation: a copy of the list, narrowed first by
      the tab's status and then, when one is selected, by the tournament. */
  method FilterMatches(ms: seq<Match>, tab: int, filter: string) returns (filtered: seq<Match>)
    ensures filtered == VisibleMatches(ms, tab, filter)
  {
    filtered := ms;
    if tab == 0 {
      Seqs.FilterKeepsAll(ms, Shown(tab, ""));
    } else if tab == 1 {
      filtered := Seqs.Filter(filtered, IsPending);
      TabStep(ms, tab, IsPending);
    } else if tab == 2 {
      filtered := Seqs.Filter(filtered, IsInProgress);
      TabStep(ms, tab, IsInProgress);
    } else if tab == 3 {
      filtered := Seqs.Filter(filtered, IsCompleted);
      TabStep(ms, tab, IsCompleted);
    } else {
      Seqs.FilterKeepsAll(ms, Shown(tab, ""));
    }
    if filter != "" {
      filtered := Seqs.Filter(filtered, m => TournamentKeeps(filter, m));
      TournamentStep(ms, tab, filter);
    }
  }

  /** Tab 0 with no tournament selected lists every match. */
  lemma AllTabListsEverything(ms: seq<Match>)
    ensures VisibleMatches(ms, 0, "") == ms
  {
    Seqs.FilterKeepsAll(ms, Shown(0, ""));
  }

  /** With tournament `k` selected, every listed match is one of tournament
      `k`'s, and every match of `k` with the tab's status is listed. */
  lemma SelectedTournamentOnly(ms: seq<Match>, tab: int, k: int)
    ensures forall i :: 0 <= i < |VisibleMatches(ms, tab, IntToString(k))| ==>
      VisibleMatches(ms, tab, IntToString(k))[i].tournament.Some? &&
      VisibleMatches(ms, tab, IntToString(k))[i].tournament.value.id == k
    ensures forall i :: (0 <= i < |ms| && TabKeeps(tab, ms[i]) && ms[i].tournament.Some? &&
                         ms[i].tournament.value.id == k) ==> ms[i] in VisibleMatches(ms, tab, IntToString(k))
  {
    var r := VisibleMatches(ms, tab, IntToString(k));
    forall i | 0 <= i < |r|
      ensures r[i].tournament.Some? && r[i].tournament.value.id == k
    {
      SelectingTournamentKeepsItsMatches(k, r[i]);
    }
    forall i | 0 <= i < |ms| && TabKeeps(tab, ms[i]) && ms[i].tournament.Some? && ms[i].tournament.value.id == k
      ensures ms[i] in r
    {
      SelectingTournamentKeepsItsMatches(k, ms[i]);
    }
  }

  /** The page's state. `error` is `None` when no error banner is shown. */
  class AllMatchesView {
    var matches: seq<Match>
    var filteredMatches: seq<Match>
    var loading: bool
    var error: Option<string>
    var tabIndex: int
    var tournaments: seq<TournamentOption>
    var tournamentFilter: string

    /** The list on screen always follows the loaded matches, the tab and
        the tournament filter. */
    predicate Valid()
      reads this
    {
      filteredMatches == VisibleMatches(matches, tabIndex, tournamentFilter)
    }

    constructor ()
      ensures Valid()
      ensures matches == [] && filteredMatches == [] && tournaments == []
      ensures loading && error == None && tabIndex == 0 && tournamentFilter == ""
    {
      matches, filteredMatches, tournaments := [], [], [];
      loading, error := true, None;
      tabIndex, tournamentFilter := 0, "";
    }

    /** The filter effect, run whenever the matches, the tab or the filter
        change; it does nothing while no match is loaded. */
    method ApplyFilters()
      modifies this`filteredMatches
      ensures |matches| == 0 ==> filteredMatches == old(filteredMatches)
      ensures |matches| > 0 ==> filteredMatches == VisibleMatches(matches, tabIndex, tournamentFilter)
    {
      if |matches| == 0 {
        return;
      }
      filteredMatches := FilterMatches(matches, tabIndex, tournamentFilter);
    }

    /** The initial fetch of `GET /matches?page=1&limit=50`. A body with a
        `data` array (even an empty one) replaces the matches and the
        tournament list; any other reply shows an error and keeps them. */
    method Load(response: Response<MatchListBody>)
      requires Valid()
      modifies this`matches, this`filteredMatches, this`tournaments, this`loading, this`error
      ensures Valid() && !loading
      ensures response.Succeeded? && response.data.Body? && response.data.items.Some? ==>
        matches == response.data.items.value && tournaments == UniqueTournaments(matches) && error == None
      ensures response.Succeeded? && !(response.data.Body? && response.data.items.Some?) ==>
        matches == old(matches) && tournaments == old(tournaments) && error == Some(LOAD_FAILED)
      ensures !response.Succeeded? ==>
        matches == old(matches) && tournaments == old(tournaments) &&
        error == Some(if response.Threw? then LOAD_ERROR else LOAD_FAILED)
    {
      loading := true;
      error := None;
      if response.Succeeded? && response.data.Body? && response.data.items.Some? {
        var all := response.data.items.value;
        matches := all;
        filteredMatches := all;
        tournaments := UniqueTournaments(all);
        if |all| == 0 {
          assert VisibleMatches(all, tabIndex, tournamentFilter) == [];
        }
        ApplyFilters();
      } else if response.Threw? {
        error := Some(LOAD_ERROR);
      } else {
        error := Some(LOAD_FAILED);
      }
      loading := false;
    }

    /** Choosing a status tab re-filters the loaded matches. */
    method SetTab(value: int)
      requires Valid()
      modifies this`tabIndex, this`filteredMatches
      ensures Valid() && tabIndex == value
    {
      tabIndex := value;
      if |matches| == 0 {
        assert VisibleMatches(matches, tabIndex, tournamentFilter) == [];
        assert old(filteredMatches) == [];
      }
      ApplyFilters();
    }

    /** Choosing a tournament ("" for all) re-filters the loaded matches. */
    method SetTournamentFilter(value: string)
      requires Valid()
      modifies this`tournamentFilter, this`filteredMatches
      ensures Valid() && tournamentFilter == value
    {
      tournamentFilter := value;
      if |matches| == 0 {
        assert VisibleMatches(matches, tabIndex, tournamentFilter) == [];
        assert old(filteredMatches) == [];
      }
      ApplyFilters();
    }
  }
}
