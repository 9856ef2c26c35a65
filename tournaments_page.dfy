/** The "Torneos" page: the server-paged tournament list with a status
    filter, the client-side search box, and the "Crear Torneo" dialog. */
module TournamentsPage {
  import opened Wrappers
  import opened Text
  import opened Models
  import Seqs

  const PAGE_SIZE := 12
  const LOAD_ERROR := "Error al cargar los torneos"
  const CREATED := "Torneo creado correctamente"
  const CREATE_ERROR := "Error al crear el torneo"

  /** A text property takes part in the search only when it is truthy. */
  predicate OptionalMatches(text: Option<string>, term: string)
  {
    IsTruthyText(text) && ContainsIgnoreCase(text.value, term)
  }

  predicate TournamentMatchesSearch(t: Tournament, term: string)
  {
    ContainsIgnoreCase(t.name, term) || OptionalMatches(t.description, term) || OptionalMatches(t.location, term)
  }

  /** `filteredTournaments`: the tournaments of the current page whose name,
      description or location contains the term, in their original order. */
  function FilteredTournaments(ts: seq<Tournament>, term: string): (r: seq<Tournament>)
    ensures forall i :: 0 <= i < |r| ==> TournamentMatchesSearch(r[i], term)
    ensures forall i :: 0 <= i < |ts| && TournamentMatchesSearch(ts[i], term) ==> ts[i] in r
    ensures Seqs.IsSubsequence(r, ts)
  {
    Seqs.Filter(ts, (t: Tournament) => TournamentMatchesSearch(t, term))
  }

  /** An empty search box lists the whole page. */
  lemma EmptySearchListsAll(ts: seq<Tournament>)
    ensures FilteredTournaments(ts, "") == ts
  {
    forall i | 0 <= i < |ts| ensures TournamentMatchesSearch(ts[i], "") {
      EmptyNeedleMatches(ts[i].name);
    }
    Seqs.FilterKeepsAll(ts, (t: Tournament) => TournamentMatchesSearch(t, ""));
  }

  /** Typing the term in upper or lower case lists the same tournaments. */
  lemma {:induction false} SearchIgnoresCase(ts: seq<Tournament>, term: string)
    ensures FilteredTournaments(ts, term) == FilteredTournaments(ts, ToLower(term))
  {
    forall i | 0 <= i < |ts|
      ensures TournamentMatchesSearch(ts[i], term) == TournamentMatchesSearch(ts[i], ToLower(term))
    {
      SearchIgnoresTermCase(ts[i].name, term);
      if IsTruthyText(ts[i].description) {
        SearchIgnoresTermCase(ts[i].description.value, term);
      }
      if IsTruthyText(ts[i].location) {
        SearchIgnoresTermCase(ts[i].location.value, term);
      }
    }
    Seqs.FilterCongruent(ts, (t: Tournament) => TournamentMatchesSearch(t, term),
                             (t: Tournament) => TournamentMatchesSearch(t, ToLower(term)));
  }

  /** Administrators (role 1) and organisers (role 2) may create tournaments. */
  predicate CanCreateTournament(user: Option<User>)
  {
    user.Some? && (user.value.userRoleId == 1 || user.value.userRoleId == 2)
  }

  predicate CreateButtonShown(isAuthenticated: bool, user: Option<User>)
  {
    isAuthenticated && CanCreateTournament(user)
  }

  /** The "Máximo de equipos" field as sent to the API: an empty field is
      left out, any other text goes through `Number`. */
  function MaxTeamsValue(field: string): (v: Option<Numeric>)
    ensures v.None? <==> field == ""
    ensures v.Some? ==> v.value == ToNumber(field)
  {
    if field != "" then Some(ToNumber(field)) else None
  }

  /** A number typed in the field reaches the API as that number. */
  lemma MaxTeamsRoundTrip(n: int)
    ensures MaxTeamsValue(IntToString(n)) == Some(Integer(n))
  {
    ToNumberOfIntToString(n);
  }

  /** One page of `GET /tournaments`: the items and the last page number. */
  datatype TournamentPage = TournamentPage(items: seq<Tournament>, lastPage: int)

  /** The page's state; `message` is the snackbar, `None` when hidden. */
  class TournamentsView {
    var tournaments: seq<Tournament>
    var page: int
    var totalPages: int
    var loading: bool
    var searchTerm: string
    var statusFilter: string
    var dialogOpen: bool
    var message: Option<Message>

    constructor ()
      ensures tournaments == [] && page == 1 && totalPages == 1 && loading
      ensures searchTerm == "" && statusFilter == "" && !dialogOpen && message == None
    {
      tournaments, page, totalPages, loading := [], 1, 1, true;
      searchTerm, statusFilter, dialogOpen, message := "", "", false, None;
    }

    /** The status filter the fetch sends: none when the filter is empty. */
    function StatusQuery(): (q: Option<string>)
      reads this
      ensures q.None? <==> statusFilter == ""
      ensures q.Some? ==> q.value == statusFilter
    {
      if statusFilter != "" then Some(statusFilter) else None
    }

    /** One run of `fetchTournaments` for the current page and status. A
        success replaces the list and the page count; a reported failure
        changes nothing; a thrown call shows an error. */
    method Fetch(response: Response<TournamentPage>) returns (requestedPage: int, pageSize: int, status: Option<string>)
      modifies this`tournaments, this`totalPages, this`loading, this`message
      ensures requestedPage == page && pageSize == PAGE_SIZE && status == StatusQuery() && !loading
      ensures response.Succeeded? ==>
        tournaments == response.data.items && totalPages == response.data.lastPage && message == old(message)
      ensures response.Rejected? ==>
        tournaments == old(tournaments) && totalPages == old(totalPages) && message == old(message)
      ensures response.Threw? ==>
        tournaments == old(tournaments) && totalPages == old(totalPages) && message == Some(Message(Error, LOAD_ERROR))
    {
      loading := true;
      requestedPage, pageSize, status := page, PAGE_SIZE, StatusQuery();
      if response.Succeeded? {
        tournaments := response.data.items;
        totalPages := response.data.lastPage;
      } else if response.Threw? {
        message := Some(Message(Error, LOAD_ERROR));
      }
      loading := false;
    }

    method PageChange(value: int)
      modifies this`page
      ensures page == value
    {
      page := value;
    }

    method SearchChange(value: string)
      modifies this`searchTerm
      ensures searchTerm == value
    {
      searchTerm := value;
    }

    /** A new status filter starts again from the first page. */
    method StatusFilterChange(value: string)
      modifies this`statusFilter, this`page
      ensures statusFilter == value && page == 1
    {
      statusFilter := value;
      page := 1;
    }

    method OpenDialog()
      modifies this`dialogOpen
      ensures dialogOpen
    {
      dialogOpen := true;
    }

    /** The create dialog's submit. After a successful create the first page
        is fetched again; when that fetch succeeds it replaces the list and
        the page goes back to 1. The success message and the closing of the
        dialog follow the create even when the reload reports a failure; a
        reload that throws is handled like a failed create. Only the
        maxTeams conversion of the request body is modelled. */
    method CreateTournament(maxTeamsField: string, created: Response<()>, reload: Response<TournamentPage>)
      returns (sentMaxTeams: Option<Numeric>, reloadStatus: Option<string>)
      modifies this`tournaments, this`totalPages, this`page, this`message, this`dialogOpen
      ensures sentMaxTeams == MaxTeamsValue(maxTeamsField) && reloadStatus == old(StatusQuery())
      ensures created.Succeeded? && reload.Succeeded? ==>
        tournaments == reload.data.items && totalPages == reload.data.lastPage && page == 1
      ensures !(created.Succeeded? && reload.Succeeded?) ==>
        tournaments == old(tournaments) && totalPages == old(totalPages) && page == old(page)
      ensures created.Succeeded? && !reload.Threw? ==>
        message == Some(Message(Success, CREATED)) && !dialogOpen
      ensures !created.Succeeded? || reload.Threw? ==>
        message == Some(Message(Error, CREATE_ERROR)) && dialogOpen == old(dialogOpen)
    {
      sentMaxTeams := MaxTeamsValue(maxTeamsField);
      reloadStatus := StatusQuery();
      if created.Succeeded? {
        if reload.Threw? {
          message := Some(Message(Error, CREATE_ERROR));
          return;
        }
        if reload.Succeeded? {
          tournaments := reload.data.items;
          totalPages := reload.data.lastPage;
          page := 1;
        }
        message := Some(Message(Success, CREATED));
        dialogOpen := false;
      } else {
        message := Some(Message(Error, CREATE_ERROR));
      }
    }
  }
}
