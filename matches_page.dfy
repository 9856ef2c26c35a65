/** The "Partidos" page variant that re-fetches a page of matches whenever
    the page, the tab or the tournament filter change, and filters the
    fetched page on the client. */
module MatchesPage {
  import opened Wrappers
  import opened Text
  import opened Models
  import opened MatchLists
  import Seqs

  const LOAD_FAILED := "No se pudieron cargar los partidos"
  const LOAD_ERROR := "Error al cargar los partidos"
  const PAGE_SIZE := 20

  /** Tab 0 "Próximos": `pending`, or no completion date yet. */
  predicate IsUpcoming(m: Match) { m.status == PENDING || !IsTruthyText(m.completedAt) }
  /** Tab 1 "En progreso". */
  predicate IsInProgress(m: Match) { m.status == IN_PROGRESS }
  /** Tab 2 "Completados": `completed`, or a winner already recorded. */
  predicate IsFinished(m: Match) { m.status == COMPLETED || IsTruthy(m.winnerId) }

  /** Any other tab index lists the whole page. */
  predicate TabKeeps(tab: int, m: Match)
  {
    if tab == 0 then IsUpcoming(m)
    else if tab == 1 then IsInProgress(m)
    else if tab == 2 then IsFinished(m)
    else true
  }

  /** Whether the page lists a fetched match, as a filter condition. */
  function Listed(tab: int, filter: string): Match -> bool
  {
    m => TabKeeps(tab, m) && TournamentKeeps(filter, m)
  }

  /** The matches listed from a fetched page for a tab and a tournament filter. */
  function ListedMatches(all: seq<Match>, tab: int, filter: string): (r: seq<Match>)
    ensures Seqs.IsSubsequence(r, all)
    ensures forall i :: 0 <= i < |r| ==> TabKeeps(tab, r[i]) && TournamentKeeps(filter, r[i])
    ensures forall i :: 0 <= i < |all| && TabKeeps(tab, all[i]) && TournamentKeeps(filter, all[i]) ==> all[i] in r
  {
    Seqs.Filter(all, Listed(tab, filter))
  }

  lemma {:induction false} TabStep(all: seq<Match>, tab: int, p: Match -> bool)
    requires forall m :: p(m) == TabKeeps(tab, m)
    ensures Seqs.Filter(all, p) == Seqs.Filter(all, Listed(tab, ""))
  {
    Seqs.FilterCongruent(all, p, Listed(tab, ""));
  }

  lemma {:induction false} TournamentStep(all: seq<Match>, tab: int, filter: string)
    requires filter != ""
    ensures Seqs.Filter(Seqs.Filter(all, Listed(tab, "")), m => TournamentKeeps(filter, m)) == ListedMatches(all, tab, filter)
  {
    Seqs.FilterTwice(all, Listed(tab, ""), m => TournamentKeeps(filter, m), Listed(tab, filter));
  }

  /** The filtering inside the fetch: the tab's condition first, then the
      tournament when one is selected. */
  method FilterFetched(all: seq<Match>, tab: int, filter: string) returns (filtered: seq<Match>)
    ensures filtered == ListedMatches(all, tab, filter)
  {
    filtered := all;
    if tab == 0 {
      filtered := Seqs.Filter(all, IsUpcoming);
      TabStep(all, tab, IsUpcoming);
    } else if tab == 1 {
      filtered := Seqs.Filter(all, IsInProgress);
      TabStep(all, tab, IsInProgress);
    } else if tab == 2 {
      filtered := Seqs.Filter(all, IsFinished);
      TabStep(all, tab, IsFinished);
    } else {
      Seqs.FilterKeepsAll(all, Listed(tab, ""));
    }
    if filter != "" {
      filtered := Seqs.Filter(filtered, m => TournamentKeeps(filter, m));
      TournamentStep(all, tab, filter);
    }
  }

  /** A match marked completed whose completion date is missing is listed
      both as upcoming and as completed. */
  lemma CompletedWithoutDateListedTwice(all: seq<Match>, i: nat)
    requires i < |all| && all[i].status == COMPLETED && all[i].completedAt.None?
    ensures all[i] in ListedMatches(all, 0, "") && all[i] in ListedMatches(all, 2, "")
  {
  }

  /** A cancelled match with a completion date and no winner is listed under
      none of the three tabs. */
  lemma CancelledFinishedMatchInNoTab(m: Match)
    requires m.status == CANCELLED && IsTruthyText(m.completedAt) && !IsTruthy(m.winnerId)
    ensures !TabKeeps(0, m) && !TabKeeps(1, m) && !TabKeeps(2, m)
  {
    assert CANCELLED[0] != PENDING[0] && CANCELLED[0] != IN_PROGRESS[0] && CANCELLED[1] != COMPLETED[1];
  }

  /** The page's state. `error` is `None` when no error banner is shown. */
  class MatchesView {
    var tabIndex: int
    var matches: seq<Match>
    var page: int
    var totalPages: int
    var loading: bool
    var error: Option<string>
    var tournamentFilter: string
    var tournaments: seq<TournamentOption>

    constructor ()
      ensures tabIndex == 0 && matches == [] && page == 1 && totalPages == 1
      ensures loading && error == None && tournamentFilter == "" && tournaments == []
    {
      tabIndex, matches, page, totalPages := 0, [], 1, 1;
      loading, error := true, None;
      tournamentFilter, tournaments := "", [];
    }

    /** One run of `fetchMatches`: it asks for page `page` of 20 matches, and
        the response decides the listed matches, the tournament list and
        the error banner. A body without a `data` array counts as an empty
        page; the tournament list is replaced only by a non-empty one. */
    method Fetch(response: Response<MatchListBody>) returns (requestedPage: int, pageSize: int)
      modifies this`matches, this`tournaments, this`totalPages, this`loading, this`error
      ensures requestedPage == page && pageSize == PAGE_SIZE && !loading
      ensures response.Succeeded? && response.data.Body? ==>
        var all := if response.data.items.Some? then response.data.items.value else [];
        matches == ListedMatches(all, tabIndex, tournamentFilter) &&
        tournaments == (if |UniqueTournaments(all)| > 0 then UniqueTournaments(all) else old(tournaments)) &&
        totalPages == 1 && error == None
      ensures !(response.Succeeded? && response.data.Body?) ==>
        matches == old(matches) && tournaments == old(tournaments) && totalPages == old(totalPages) &&
        error == Some(if response.Threw? then LOAD_ERROR else LOAD_FAILED)
    {
      loading := true;
      error := None;
      requestedPage, pageSize := page, PAGE_SIZE;
      if response.Succeeded? && response.data.Body? {
        var all := if response.data.items.Some? then response.data.items.value else [];
        matches := FilterFetched(all, tabIndex, tournamentFilter);
        var unique := UniqueTournaments(all);
        if |unique| > 0 {
          tournaments := unique;
        }
        totalPages := 1;
      } else if response.Threw? {
        error := Some(LOAD_ERROR);
      } else {
        error := Some(LOAD_FAILED);
      }
      loading := false;
    }

    /** A new tab starts again from the first page. */
    method TabChange(value: int)
      modifies this`tabIndex, this`page
      ensures tabIndex == value && page == 1
    {
      tabIndex := value;
      page := 1;
    }

    method PageChange(value: int)
      modifies this`page
      ensures page == value
    {
      page := value;
    }

    /** A new tournament filter starts again from the first page. */
    method TournamentFilterChange(value: string)
      modifies this`tournamentFilter, this`page
      ensures tournamentFilter == value && page == 1
    {
      tournamentFilter := value;
      page := 1;
    }
  }
}
