# Padel tournament front end: decision core in Dafny

This project models the decision logic of the padel tournament web front end
(a React application over a REST API). It leaves out rendering and keeps the
parts where the program decides something:

- **Match-result form.** The editable list of set scores and the live count
  of sets won. It also covers who wins the match and whether "Guardar" sends
  the result at all.
- **Tournament detail page.**
  - Which API call stores a result (the finalising `registerResult` or the
    partial `updateMatch`).
  - How the answer is merged into the local match list.
  - How the registered-team list changes after a withdrawal or a seed.
  - What the lifecycle calls (open registration, start, complete) do to the
    page state.
- **Permission and lifecycle rules.**
  - Who manages a tournament and which lifecycle button each status offers.
  - Who may register a team, record a result or withdraw a registration.
  - How the rounds of a bracket are found and named.
- **List pages.** The tab, tournament and text filters of the match,
  tournament and team lists, and the de-duplicated tournament drop-down.
  All of these are order-preserving filters.
- **Forms.**
  - The four-step sign-up wizard and the one-page sign-up form, which share
    one schema.
  - The profile form and its request body.
  - The login form's loading and error flags.
- **Session.**
  - The token and user kept in the browser's local storage.
  - The authentication service that reads and writes them, and the session
    store the pages read.

Every call to the backend is a parameter of the operation that makes it. Its
outcome is a `Response`: the body reported success with data, the body reported
failure with an error text, or the call threw. Each event handler is one
atomic step on the state it changes.

Components whose handlers update their own state are `class`es with
`modifies` frames, for example `ResultForm`, `DetailPage`, `AuthProvider` and
`LoginFormState`. Expressions over props are functions. Loops in the source
are methods with loop invariants, proved against specification functions:
the set-count `forEach` and `validateStep`. The list filters of the match
pages are `Array.prototype.filter` calls, so they are compositions of
functions over `Seqs.Filter`, each step proved equal to its specification.

Two conventions carry JavaScript's semantics:

- `parseInt` results are `Num` (an integer or NaN).
- `Number(...)` results are `Numeric` (an integer, or the text it could not
  read).

Text search is `toLowerCase().includes(...)` on both sides.

One module per source file, plus four shared modules:

- `Wrappers`: `Option`, `Response` and the feedback banner.
- `Models`: the entities of `src/types/models.ts`.
- `Text`: `parseInt`, `Number`, `toString`, `toLowerCase` and `includes`.
- `Seqs`: an order-preserving filter and its lemmas.

## Model

| member | source | states |
|---|---|---|
| MatchResultForm.WithField | src/components/tournaments/MatchResultForm.tsx:102-109 | editing one side of a set row sets that side to the value and keeps the other side |
| MatchResultForm.SetWinner | src/components/tournaments/MatchResultForm.tsx:119-126 | a row is won by a side exactly when both fields are filled and that side's parsed score is strictly greater (a draw or NaN is won by nobody) |
| MatchResultForm.CountSetsWon | src/components/tournaments/MatchResultForm.tsx:112-132 | the `forEach` loop's two counters end equal to the number of rows won by each side |
| MatchResultForm.SetsWonWithinFilled | src/components/tournaments/MatchResultForm.tsx:112-132 | the sets won by both sides together never exceed the number of fully filled rows |
| MatchResultForm.UnfilledRowsIgnored | src/components/tournaments/MatchResultForm.tsx:119-120 | counting only the filled rows gives the same count as counting all rows |
| MatchResultForm.SetsWonAppend | src/components/tournaments/MatchResultForm.tsx:88-90 | a row appended at the end adds exactly its own point to the count |
| MatchResultForm.SetsWonUpdate | src/components/tournaments/MatchResultForm.tsx:102-109 | replacing one row changes the count by that row's old and new point only |
| MatchResultForm.DetermineWinnerId | src/components/tournaments/MatchResultForm.tsx:135-146 | the winner is team1's id iff team1 has more sets and the match carries team1, team2's id symmetrically, and null on a tie or a missing team |
| MatchResultForm.FormattedSets | src/components/tournaments/MatchResultForm.tsx:158-169 | the submitted sets are exactly the filled rows, in order, each score through parseInt |
| MatchResultForm.CheckSubmission | src/components/tournaments/MatchResultForm.tsx:154-201 | nothing is sent without a match; with no filled row the result is refused unless the status is scheduled or cancelled; a completed result with equal set counts is refused; a completed result whose winner id is not truthy is refused, and only a completed one; the result is sent exactly when none of these applies; a sent completed result carries the winner of DetermineWinnerId, any other status no winner; the sent sets are FormattedSets |
| MatchResultForm.ScheduledSubmitSendsNoSets | src/components/tournaments/MatchResultForm.tsx:324 | whenever "Guardar" is enabled for a scheduled match, pressing it sends the result with no sets and no winner |
| MatchResultForm.CompletedResultNamesSetWinner | src/components/tournaments/MatchResultForm.tsx:174-188 | with live counts, a completed result that is sent names the team that won more sets |
| MatchResultForm.TiedMatchRefused | src/components/tournaments/MatchResultForm.tsx:174-179 | 6-4, 3-6 counts one set each, and a completed result is refused for want of a clear winner |
| MatchResultForm.ThreeSetWinForTeam1 | src/components/tournaments/MatchResultForm.tsx:154-201 | 6-3, 4-6, 6-2 completed is sent as 2-1 with the three parsed sets and team1 as winner |
| MatchResultForm.PartialSetInProgressRefused | src/components/tournaments/MatchResultForm.tsx:158-163 | a single half-typed set in progress is refused with the "no valid set" message |
| MatchResultForm.PartialSetBesideFinishedOne | src/components/tournaments/MatchResultForm.tsx:158-169 | a finished set beside a half-typed one in progress is sent with the finished set only and no winner |
| MatchResultForm.LoadedEntries | src/components/tournaments/MatchResultForm.tsx:65-68 | stored sets become one text row each, holding the scores' decimal text |
| MatchResultForm.LoadedSetsRoundTrip | src/components/tournaments/MatchResultForm.tsx:65-68 | stored sets loaded into the form and sent untouched reach the API as the same integers |
| MatchResultForm.LoadFor | src/components/tournaments/MatchResultForm.tsx:59-83 | stored rows are loaded only from non-empty JSON text that decodes to an array when both score aliases are present; text that decodes to another value keeps the rows; every other case resets the form |
| MatchResultForm.ResultForm.constructor | src/components/tournaments/MatchResultForm.tsx:41-45 | the form starts with exactly one empty set, scores 0-0 and status in_progress |
| MatchResultForm.ResultForm.Recount | src/components/tournaments/MatchResultForm.tsx:112-132 | after the effect the scores equal the live count of the rows; with no rows they are unchanged |
| MatchResultForm.ResultForm.Open | src/components/tournaments/MatchResultForm.tsx:48-85 | opening for a match sets its status (in_progress by default), clears the error and replaces, keeps or resets the rows as LoadFor says, with the count invariant kept |
| MatchResultForm.ResultForm.AddSet | src/components/tournaments/MatchResultForm.tsx:88-90 | one empty set is appended, the others are unchanged and the count stays the same |
| MatchResultForm.ResultForm.RemoveSet | src/components/tournaments/MatchResultForm.tsx:93-99 | a row is removed only while at least two are left, the rest keep their order, and the list is never emptied; while the delete button is disabled (one row) nothing changes, otherwise exactly one row goes |
| MatchResultForm.ResultForm.SetChange | src/components/tournaments/MatchResultForm.tsx:102-109 | a value that is neither empty nor all digits changes nothing; otherwise only that field of that row changes, and the count follows |
| MatchResultForm.ResultForm.SetStatus | src/components/tournaments/MatchResultForm.tsx:149-151 | the chosen status is stored |
| MatchResultForm.ResultForm.Submit | src/components/tournaments/MatchResultForm.tsx:154-201 | the outcome is CheckSubmission of the form's state, and a refused result shows its message |
| TournamentDetail.ApplyPatch | src/pages/TournamentDetailPage.tsx:451 | each of the eighteen fields takes the answer's value when the answer carries it, and keeps the match's value otherwise |
| TournamentDetail.EmptyPatchKeepsMatch | src/pages/TournamentDetailPage.tsx:451 | an answer without fields leaves the match as it was |
| TournamentDetail.ApplyPatchIdempotent | src/pages/TournamentDetailPage.tsx:451 | merging the same answer twice equals merging it once |
| TournamentDetail.MergeMatch | src/pages/TournamentDetailPage.tsx:449-453 | the list keeps its length; matches with another id are untouched; the match with the id becomes the merge of the answer |
| TournamentDetail.MergeMatchIdempotent | src/pages/TournamentDetailPage.tsx:449-453 | storing the same answer twice leaves the list as storing it once, when the answer keeps the match id |
| TournamentDetail.RemoveTeam | src/pages/TournamentDetailPage.tsx:382 | the withdrawn id disappears, every other team stays, in its original order |
| TournamentDetail.RemoveAbsentTeam | src/pages/TournamentDetailPage.tsx:382 | withdrawing an id that is not registered changes nothing |
| TournamentDetail.WithSeed | src/pages/TournamentDetailPage.tsx:402-406 | only the teams with that id get the seed; every other team and every id is unchanged |
| TournamentDetail.ChooseResultCall | src/pages/TournamentDetailPage.tsx:423-445 | exactly one call: registerResult iff the status is completed and the winner is truthy, otherwise updateMatch, with the submitted values as its body |
| TournamentDetail.FormResultsTakeTheirPath | src/pages/TournamentDetailPage.tsx:436-445 | every result the form sends is finalised iff its status is completed |
| TournamentDetail.ThreeSetWinIsFinalised | src/pages/TournamentDetailPage.tsx:436-441 | a 2-1 completed result for team1 is sent through registerResult with team1 as winner |
| TournamentDetail.DetailPage.constructor | src/pages/TournamentDetailPage.tsx:81-95 | the page starts with no tournament, no teams, no matches and no message |
| TournamentDetail.DetailPage.OpenRegistration | src/pages/TournamentDetailPage.tsx:293-309 | without an id or a tournament nothing happens; otherwise one call, and the tournament is replaced only on success, with the matching banner |
| TournamentDetail.DetailPage.StartTournament | src/pages/TournamentDetailPage.tsx:312-329 | a successful start replaces both the tournament and the match list; a failure changes neither and shows the error |
| TournamentDetail.DetailPage.CompleteTournament | src/pages/TournamentDetailPage.tsx:332-348 | completion is a plain update to "completed"; the tournament is replaced only on success |
| TournamentDetail.DetailPage.RegisterTeam | src/pages/TournamentDetailPage.tsx:351-371 | the registered list is reloaded only after a successful registration and is replaced only by a successful reload; a reload that throws shows the registration error |
| TournamentDetail.DetailPage.UnregisterTeam | src/pages/TournamentDetailPage.tsx:374-391 | on success the list becomes RemoveTeam of the old list; on failure it is unchanged and the error shows |
| TournamentDetail.DetailPage.AssignSeed | src/pages/TournamentDetailPage.tsx:394-415 | on success the list becomes WithSeed of the old list; on failure it is unchanged and the error shows |
| TournamentDetail.DetailPage.RegisterResult | src/pages/TournamentDetailPage.tsx:418-462 | the call is ChooseResultCall; on success the list becomes MergeMatch of the answer; on failure the list is unchanged and the error shows |
| TournamentInfo.ManagementNeedsSignIn | src/components/tournaments/TournamentInfo.tsx:39-43 | nobody manages a tournament without being signed in, and its organizer always does |
| TournamentInfo.LifecycleButton | src/components/tournaments/TournamentInfo.tsx:137-171 | at most one lifecycle button, never "Editar", and none for a completed tournament |
| TournamentInfo.Buttons | src/components/tournaments/TournamentInfo.tsx:126-173 | no button for a non-manager; for a manager "Editar" first and then at most the status's lifecycle button |
| TournamentInfo.ButtonsFollowLifecycle | src/components/tournaments/TournamentInfo.tsx:137-171 | a manager gets a lifecycle button iff the status has a next step, and that button moves exactly one stage forward |
| TournamentInfo.NoCompleteOnDraft | src/components/tournaments/TournamentInfo.tsx:137-171 | a draft offers neither "Iniciar" nor "Finalizar" |
| TournamentInfo.StatusChip | src/components/tournaments/TournamentInfo.tsx:51-64 | each of the four statuses has its label and colour; any other status is shown raw |
| RegisteredTeams.FilteredTeams | src/components/tournaments/RegisteredTeams.tsx:66-70 | an order-preserving subsequence holding exactly the teams whose name or a player's name contains the term, ignoring case |
| RegisteredTeams.EmptySearchListsAll | src/components/tournaments/RegisteredTeams.tsx:66-70 | an empty search lists every team |
| RegisteredTeams.AvailableUserTeams | src/components/tournaments/RegisteredTeams.tsx:78-86 | exactly the user's own teams that are not registered, in order; nothing without a user |
| RegisteredTeams.RegisterButton | src/components/tournaments/RegisteredTeams.tsx:122-128 | shown iff the tournament is open and a signed-in user has no registered team; enabled only when a team can be offered |
| RegisteredTeams.NoControlsWhenClosedOrAnonymous | src/components/tournaments/RegisteredTeams.tsx:170-182 | a completed tournament and a visitor show neither the seed nor the withdraw control |
| RegisteredTeams.SeedFieldText | src/components/tournaments/RegisteredTeams.tsx:96-100 | the seed field opens empty iff the seed is absent, 0 or NaN |
| RegisteredTeams.SeedRequest | src/components/tournaments/RegisteredTeams.tsx:108-113 | a seed is sent iff a team is selected and the value is non-empty, as that team's id and parseInt of the value |
| RegisteredTeams.SeedDialogRoundTrip | src/components/tournaments/RegisteredTeams.tsx:96-113 | opening the seed dialog and saving it untouched re-sends the team's current seed, or sends nothing for an absent, 0 or NaN seed |
| RegisteredTeams.TeamsCard.constructor | src/components/tournaments/RegisteredTeams.tsx:52-56 | empty search, both dialogs closed, no team selected |
| RegisteredTeams.TeamsCard.SetSearchTerm | src/components/tournaments/RegisteredTeams.tsx:143 | the typed term is stored |
| RegisteredTeams.TeamsCard.OpenRegisterDialog | src/components/tournaments/RegisteredTeams.tsx:88-90 | the register dialog opens |
| RegisteredTeams.TeamsCard.CloseRegisterDialog | src/components/tournaments/RegisteredTeams.tsx:92-94 | the register dialog closes |
| RegisteredTeams.TeamsCard.PickTeamToRegister | src/components/tournaments/RegisteredTeams.tsx:248-251 | the picked team's id is registered and the dialog closes |
| RegisteredTeams.TeamsCard.OpenSeedDialog | src/components/tournaments/RegisteredTeams.tsx:96-100 | the team is selected and the field holds SeedFieldText |
| RegisteredTeams.TeamsCard.CloseSeedDialog | src/components/tournaments/RegisteredTeams.tsx:102-106 | the dialog closes and the selection and field are cleared |
| RegisteredTeams.TeamsCard.SetSeedValue | src/components/tournaments/RegisteredTeams.tsx:287 | the typed value is stored |
| RegisteredTeams.TeamsCard.SubmitSeed | src/components/tournaments/RegisteredTeams.tsx:108-113 | the request is SeedRequest; the dialog closes only when something is sent |
| TournamentMatches.Rounds | src/components/tournaments/TournamentMatches.tsx:96-98 | strictly ascending, and holding exactly the rounds that have a match (empty without matches) |
| TournamentMatches.MaxOf | src/components/tournaments/TournamentMatches.tsx:213 | the maximum is an element of the list and no element exceeds it |
| TournamentMatches.MaxOfIncreasingIsLast | src/components/tournaments/TournamentMatches.tsx:213 | for the sorted round list the maximum is the last round |
| TournamentMatches.RoundName | src/components/tournaments/TournamentMatches.tsx:210-226 | a tab is named "Final", "Semifinales", "Cuartos" or "Octavos" exactly for the highest round and the three below it, and "Ronda n" exactly for every other round |
| TournamentMatches.RoundNamesDistinct | src/components/tournaments/TournamentMatches.tsx:210-226 | no two rounds of a bracket share a tab label |
| TournamentMatches.FinalRound | src/components/tournaments/TournamentMatches.tsx:366 | the final round passed on is the highest round, or 1 without rounds |
| TournamentMatches.RoundMatches | src/components/tournaments/TournamentMatches.tsx:256 | a round tab lists exactly the matches of that round, in order |
| TournamentMatches.EachMatchUnderOneTab | src/components/tournaments/TournamentMatches.tsx:256 | every match is listed under the tab of its own round and under no other tab |
| TournamentMatches.RegisterButtonGuards | src/components/tournaments/TournamentMatches.tsx:151-186 | a visitor never sees "Registrar", and a match with a recorded winner offers it to nobody |
| TournamentMatches.MatchStatusChip | src/components/tournaments/TournamentMatches.tsx:192-200 | "Completado" whenever a winner is recorded, whatever the status; else "En progreso" for in_progress; else "Pendiente" |
| TournamentMatches.AtMostOneTrophy | src/components/tournaments/TournamentMatches.tsx:275-294 | at most one team carries the trophy, and only in a match with a winner |
| TournamentMatches.MatchesCard.constructor | src/components/tournaments/TournamentMatches.tsx:79-85 | first tab, first page, both dialogs closed |
| TournamentMatches.MatchesCard.TabChange | src/components/tournaments/TournamentMatches.tsx:101-103 | the chosen tab is stored |
| TournamentMatches.MatchesCard.PageChange | src/components/tournaments/TournamentMatches.tsx:203-205 | the chosen page is stored |
| TournamentMatches.MatchesCard.OpenResultDialog | src/components/tournaments/TournamentMatches.tsx:105-108 | the match is selected and the result dialog opens |
| TournamentMatches.MatchesCard.CloseResultDialog | src/components/tournaments/TournamentMatches.tsx:110-113 | the dialog closes and the selection is cleared |
| TournamentMatches.MatchesCard.SubmitResult | src/components/tournaments/TournamentMatches.tsx:138-148 | the form's six values are forwarded unchanged and the dialog closes |
| TournamentMatches.MatchesCard.OpenDetailDialog | src/components/tournaments/TournamentMatches.tsx:115-130 | the match is fetched by id; the details are shown only after a successful fetch, and the spinner always stops |
| TournamentMatches.MatchesCard.CloseDetailDialog | src/components/tournaments/TournamentMatches.tsx:132-136 | the dialog closes and both selections are cleared |
| MatchDetails.RoundLabel | src/components/tournaments/MatchDetails.tsx:55-62 | a missing or zero round is "Desconocida"; otherwise "Final", "Semifinal" or "Cuartos de final" exactly for the final and the two rounds below it, and "Ronda n" exactly for every other round |
| MatchDetails.RoundLabelsDistinct | src/components/tournaments/MatchDetails.tsx:55-62 | no two known rounds share a label in the detail dialog |
| MatchDetails.RoundNamesDifferBelowFinal | src/components/tournaments/MatchDetails.tsx:55-62 | one, two and three rounds below the final the bracket says "Semifinales", "Cuartos", "Octavos" where the detail dialog says "Semifinal", "Cuartos de final", "Ronda n" |
| MatchDetails.FinalNamedAlike | src/components/tournaments/MatchDetails.tsx:55-62 | the bracket tabs and the detail dialog call the same round "Final" |
| MatchDetails.StatusLabel | src/components/tournaments/MatchDetails.tsx:65-74 | three known statuses get fixed labels, a missing status is "Desconocido", any other is shown raw |
| MatchDetails.StatusColor | src/components/tournaments/MatchDetails.tsx:77-86 | "success" iff completed, "primary" iff in_progress, "default" otherwise |
| MatchDetails.RowWinner | src/components/tournaments/MatchDetails.tsx:110-125 | a set row credits team1 iff its games are strictly more |
| MatchDetails.RowWinnerAgreesWithForm | src/components/tournaments/MatchDetails.tsx:110-125 | on a decided set the table and the form's live count credit the same team |
| MatchDetails.DrawnSetShownForTeam2 | src/components/tournaments/MatchDetails.tsx:110-125 | a drawn set is shown as won by team2 while the form credits nobody |
| MatchDetails.Rows | src/components/tournaments/MatchDetails.tsx:110-131 | one numbered row per stored set, in order, with its RowWinner |
| MatchDetails.SetsArea | src/components/tournaments/MatchDetails.tsx:89-140 | nothing without stored results or for empty text; for text, an error line exactly when it is malformed, "No disponible" when it decodes to another value or an empty array, and the table of Rows when it decodes to a non-empty array; an array received as such is shown the same way |
| MatchDetails.TextAndArrayShownAlike | src/components/tournaments/MatchDetails.tsx:93-95 | sets received as JSON text show the same area as the array the text decodes to |
| MatchLists.SelectingTournamentKeepsItsMatches | src/pages/AllMatchesPage.tsx:114-118 | comparing the id's text with the selected text keeps exactly the matches of that tournament |
| MatchLists.Distinct | src/pages/AllMatchesPage.tsx:61-63 | no duplicates, and exactly the values of the input |
| MatchLists.DistinctKeepsFirstOccurrenceOrder | src/pages/AllMatchesPage.tsx:61-63 | the distinct values keep the order of their first occurrence |
| MatchLists.TournamentIds | src/pages/AllMatchesPage.tsx:62-63 | exactly the ids of the tournaments the matches carry |
| MatchLists.FirstTournamentWith | src/pages/AllMatchesPage.tsx:64 | the tournament found has the id and belongs to some match |
| MatchLists.UniqueTournaments | src/pages/AllMatchesPage.tsx:61-69 | one entry per distinct tournament id, in first-occurrence order |
| MatchLists.UniqueTournamentsDistinct | src/pages/AllMatchesPage.tsx:61-69 | no tournament is offered twice |
| MatchLists.UniqueTournamentNamedAfterMatch | src/pages/AllMatchesPage.tsx:61-69 | every entry is the id and name of some match's tournament |
| MatchLists.EveryTournamentOffered | src/pages/AllMatchesPage.tsx:61-69 | every tournament that has a match is offered |
| AllMatchesPage.VisibleMatches | src/pages/AllMatchesPage.tsx:87-121 | an order-preserving subsequence holding exactly the matches that pass the tab and the tournament filter |
| AllMatchesPage.TabStep | src/pages/AllMatchesPage.tsx:93-111 | each tab's status filter lists the same matches as the tab condition |
| AllMatchesPage.TournamentStep | src/pages/AllMatchesPage.tsx:113-118 | narrowing the tab's list by tournament gives VisibleMatches |
| AllMatchesPage.FilterMatches | src/pages/AllMatchesPage.tsx:87-121 | the step-by-step narrowing ends with VisibleMatches |
| AllMatchesPage.AllTabListsEverything | src/pages/AllMatchesPage.tsx:93-95 | tab 0 without a tournament lists every match |
| AllMatchesPage.SelectedTournamentOnly | src/pages/AllMatchesPage.tsx:113-118 | with tournament k selected, only k's matches are listed, and all of k's matches with the tab's status are |
| AllMatchesPage.AllMatchesView.constructor | src/pages/AllMatchesPage.tsx:20-26 | nothing loaded, loading, first tab, no filter |
| AllMatchesPage.AllMatchesView.ApplyFilters | src/pages/AllMatchesPage.tsx:87-121 | with no match loaded the list is untouched; otherwise it becomes VisibleMatches |
| AllMatchesPage.AllMatchesView.Load | src/pages/AllMatchesPage.tsx:49-84 | a body with a data array replaces the matches and the tournament list; anything else keeps them and shows the error; the listed matches always follow the filters |
| AllMatchesPage.AllMatchesView.SetTab | src/pages/AllMatchesPage.tsx:31-33 | a new tab re-filters the loaded matches |
| AllMatchesPage.AllMatchesView.SetTournamentFilter | src/pages/AllMatchesPage.tsx:35-37 | a new tournament filter re-filters the loaded matches |
| MatchesPage.ListedMatches | src/pages/MatchesPage.tsx:93-117 | an order-preserving subsequence holding exactly the fetched matches that pass the tab and the tournament filter |
| MatchesPage.TabStep | src/pages/MatchesPage.tsx:95-110 | each tab's filter lists the same matches as the tab condition |
| MatchesPage.TournamentStep | src/pages/MatchesPage.tsx:113-117 | narrowing the tab's list by tournament gives ListedMatches |
| MatchesPage.FilterFetched | src/pages/MatchesPage.tsx:93-117 | the step-by-step narrowing ends with ListedMatches |
| MatchesPage.CompletedWithoutDateListedTwice | src/pages/MatchesPage.tsx:95-110 | a completed match without a completion date is listed under both "Próximos" and "Completados" |
| MatchesPage.CancelledFinishedMatchInNoTab | src/pages/MatchesPage.tsx:95-110 | a cancelled match with a completion date and no winner is under none of the three tabs |
| MatchesPage.MatchesView.constructor | src/pages/MatchesPage.tsx:70-77 | first tab, first page, one page in total, loading, no filter |
| MatchesPage.MatchesView.Fetch | src/pages/MatchesPage.tsx:80-149 | a body lists ListedMatches of its data (an empty page when data is missing); the tournament list is replaced only by a non-empty one; the page count becomes 1; a failure keeps everything and shows the error |
| MatchesPage.MatchesView.TabChange | src/pages/MatchesPage.tsx:151-154 | a new tab goes back to page 1 |
| MatchesPage.MatchesView.PageChange | src/pages/MatchesPage.tsx:156-158 | the chosen page is stored |
| MatchesPage.MatchesView.TournamentFilterChange | src/pages/MatchesPage.tsx:160-163 | a new tournament filter goes back to page 1 |
| TournamentsPage.FilteredTournaments | src/pages/TournamentsPage.tsx:160-164 | an order-preserving subsequence holding exactly the tournaments whose name, or truthy description or location, contains the term, ignoring case |
| TournamentsPage.EmptySearchListsAll | src/pages/TournamentsPage.tsx:160-164 | an empty search lists the whole page |
| TournamentsPage.SearchIgnoresCase | src/pages/TournamentsPage.tsx:160-164 | a term and its lower-case form list the same tournaments |
| TournamentsPage.MaxTeamsValue | src/pages/TournamentsPage.tsx:133 | an empty field is left out; any other goes through Number |
| TournamentsPage.MaxTeamsRoundTrip | src/pages/TournamentsPage.tsx:133 | a typed integer reaches the API as that integer |
| TournamentsPage.TournamentsView.constructor | src/pages/TournamentsPage.tsx:59-66 | first page, one page in total, loading, empty search and filter, dialog closed |
| TournamentsPage.TournamentsView.StatusQuery | src/pages/TournamentsPage.tsx:73 | no status is sent iff the filter is empty |
| TournamentsPage.TournamentsView.Fetch | src/pages/TournamentsPage.tsx:69-87 | page and status are requested; a success replaces the list and page count; a reported failure changes nothing; a thrown call shows the error |
| TournamentsPage.TournamentsView.PageChange | src/pages/TournamentsPage.tsx:89-91 | the chosen page is stored |
| TournamentsPage.TournamentsView.SearchChange | src/pages/TournamentsPage.tsx:93-95 | the typed term is stored |
| TournamentsPage.TournamentsView.StatusFilterChange | src/pages/TournamentsPage.tsx:97-100 | a new status filter goes back to page 1 |
| TournamentsPage.TournamentsView.OpenDialog | src/pages/TournamentsPage.tsx:102-104 | the create dialog opens |
| TournamentsPage.TournamentsView.CreateTournament | src/pages/TournamentsPage.tsx:126-156 | maxTeams is sent as MaxTeamsValue; after a create, a successful reload replaces the list and goes back to page 1; the success banner closes the dialog; a failed create, or a reload that throws, shows the create error |
| TeamsPage.FilteredTeams | src/pages/TeamsPage.tsx:178-182 | an order-preserving subsequence holding exactly the teams whose name or a truthy player name contains the term, ignoring case |
| TeamsPage.SameSearchAsRegisteredTeams | src/pages/TeamsPage.tsx:178-182 | the page's team search and the tournament card's team search list the same teams |
| TeamsPage.AvailablePlayers | src/pages/TeamsPage.tsx:82-84 | every fetched user except the signed-in one, in order; nobody without a signed-in user |
| TeamsPage.PlayerLevelText | src/pages/TeamsPage.tsx:101-109 | "Nivel no especificado" exactly for a level other than the four known ones |
| TeamsPage.TeamsView.constructor | src/pages/TeamsPage.tsx:47-50 | dialog closed, no players, nothing loading, no message |
| TeamsPage.TeamsView.FetchAvailablePlayers | src/pages/TeamsPage.tsx:74-98 | a body with a user array fills the picker with AvailablePlayers; any other reply empties it and shows the error; loading always ends |
| TeamsPage.TeamsView.UserSearch | src/pages/TeamsPage.tsx:112-116 | a search is issued iff the input has at least two characters, and it sends the input as the query; otherwise nothing changes; an issued search that succeeds fills the picker with AvailablePlayers and keeps the message, one that fails empties it and shows the error |
| TeamsPage.TeamsView.OpenDialog | src/pages/TeamsPage.tsx:126-130 | the dialog opens, the users are fetched with an empty query and the partner is cleared; a fetch that succeeds fills the picker with AvailablePlayers and keeps the message, one that fails empties it and shows the error |
| TeamsPage.TeamsView.CreateTeam | src/pages/TeamsPage.tsx:148-174 | the partner id is sent through Number; success closes the dialog with the success banner; a failed create, or a reload that throws, shows the error |
| Registration.FormValidMeans | src/components/Register/RegisterForm.tsx:124-135 | the schema passes iff the eight required fields are filled, the e-mail is well formed, the password has at least 8 characters and the confirmation equals it |
| Registration.OptionalInt | src/components/Register/RegisterForm.tsx:185-187 | an empty numeric field is left out; any other goes through parseInt |
| Registration.Processed | src/pages/RegisterPage.tsx:86-91 | the three numeric fields are OptionalInt of the typed text; every other field passes unchanged |
| Registration.ProcessedNumbersRoundTrip | src/pages/RegisterPage.tsx:86-91 | typed integers reach the API as those integers |
| RegisterForm.StepFields | src/components/Register/RegisterForm.tsx:245-263 | the last step and any other index check no field |
| RegisterForm.StepsCoverSchema | src/components/Register/RegisterForm.tsx:245-278 | passing the first three steps is passing the whole schema |
| RegisterForm.RegisterWizard.constructor | src/components/Register/RegisterForm.tsx:152-175 | first step, nothing completed, empty values, not loading |
| RegisterForm.RegisterWizard.ValidateStep | src/components/Register/RegisterForm.tsx:245-278 | the step's fields become touched, and the step is valid iff the schema rejects none of them |
| RegisterForm.RegisterWizard.SubmitForm | src/components/Register/RegisterForm.tsx:177-211 | every field is touched; the form is sent iff the schema passes, as Processed; success notifies the parent, failure shows the error; loading ends cleared |
| RegisterForm.RegisterWizard.Next | src/components/Register/RegisterForm.tsx:217-230 | a valid step before the last advances by one and marks itself completed; an invalid one changes no step; on the last step a valid form is submitted instead; the completed steps stay a prefix |
| RegisterForm.RegisterWizard.Back | src/components/Register/RegisterForm.tsx:232-234 | goes back one step; the button is disabled on the first step and while loading |
| RegisterForm.RegisterWizard.StepClick | src/components/Register/RegisterForm.tsx:236-242 | jumps only to a step no further than the number of completed steps |
| RegisterPage.RegisterPageState.constructor | src/pages/RegisterPage.tsx:57-78 | empty values, not loading, no error, no success |
| RegisterPage.RegisterPageState.Submit | src/pages/RegisterPage.tsx:80-114 | sent iff the schema passes, as Processed; success sets the success flag, failure the error; loading always ends cleared |
| ProfileForm.OrEmpty | src/components/profile/ProfileForm.tsx:39-47 | a missing or empty text becomes "" and any other is kept |
| ProfileForm.NumberOrEmpty | src/components/profile/ProfileForm.tsx:41-43 | a missing number or 0 becomes "" and any other is kept |
| ProfileForm.InitialValues | src/components/profile/ProfileForm.tsx:36-48 | name and e-mail copied; every other field of the user, or "" when it is absent |
| ProfileForm.NumberOrNull | src/components/profile/ProfileForm.tsx:60-62 | null exactly for an empty field; a held number as itself; typed text through Number |
| ProfileForm.TextOrNull | src/components/profile/ProfileForm.tsx:74-75 | null exactly for an empty text |
| ProfileForm.ApiPayload | src/components/profile/ProfileForm.tsx:52-76 | the four renamed fields carry their form values; numbers through NumberOrNull; the camelCase copies equal the snake_case ones; city and country through TextOrNull |
| ProfileForm.PayloadIgnoresEmail | src/components/profile/ProfileForm.tsx:52-76 | the e-mail field never reaches the request body |
| ProfileForm.UnchangedProfileRoundTrip | src/components/profile/ProfileForm.tsx:36-76 | saving the profile untouched, against a server that echoes the body, leaves the stored user exactly as it was |
| ProfileForm.ProfileFormState.constructor | src/components/profile/ProfileForm.tsx:32-48 | the form starts with InitialValues, not loading, not editing |
| ProfileForm.ProfileFormState.ToggleEdit | src/components/profile/ProfileForm.tsx:98 | the edit mode flips |
| ProfileForm.ProfileFormState.Submit | src/components/profile/ProfileForm.tsx:50-89 | sent iff the schema passes, as ApiPayload; edit mode is left only after a successful update; loading ends cleared |
| AuthService.UserIn | src/services/authService.ts:248-251 | the stored user, and null exactly when no user is stored |
| AuthService.FailureOf | src/services/authService.ts:107-113 | a reported failure is handed back as it came; a thrown call gives its message, or the fallback when the message is empty |
| AuthService.Outcome | src/services/authService.ts:117-150 | success iff the reply succeeded, with its data; otherwise the error of FailureOf |
| AuthService.WithIdentity | src/services/authService.ts:96-99 | the credentials plus identity "postman" |
| AuthService.LoginEstablishesSession | src/services/authService.ts:101-105 | after a login the user is stored, the session is authenticated iff the token is non-empty, and no other key changes |
| AuthService.LogoutEndsSession | src/services/authService.ts:227-231 | after a logout neither token nor user is stored, and no other key changes |
| AuthService.RefreshKeepsUser | src/services/authService.ts:211-214 | a refresh keeps the stored user and only replaces the token |
| AuthService.Login | src/services/authService.ts:93-114 | the request carries WithIdentity; token and user are written only on success; the result is Outcome |
| AuthService.MergeProfile | src/services/authService.ts:163-176 | the name comes from the reply; each of the nine mapped fields (level, hand, position, racket, years, height, weight, city, country) from the reply when truthy, else the old value; id, e-mail, phone, role, status and photo kept |
| AuthService.MergeProfileIdempotent | src/services/authService.ts:163-176 | merging the same reply again changes nothing more |
| AuthService.NameOnlyReplyKeepsUser | src/services/authService.ts:163-176 | a reply carrying only the current name leaves the user as it was |
| AuthService.UpdateUser | src/services/authService.ts:153-193 | a success stores and returns MergeProfile of the stored user (the blank user when none); a failure changes no storage |
| AuthService.RefreshToken | src/services/authService.ts:209-222 | only a success replaces the token; the result is Outcome |
| AuthService.Logout | src/services/authService.ts:225-240 | only a success removes the token and the user; the result is Outcome |
| AuthContext.AuthProvider.constructor | src/contexts/AuthContext.tsx:28-29 | no user, loading |
| AuthContext.AuthProvider.Startup | src/contexts/AuthContext.tsx:31-63 | a stored user is shown; with a token, a confirmed user is stored again and any failure removes the session and the user; loading ends false |
| AuthContext.AuthProvider.Login | src/contexts/AuthContext.tsx:65-77 | the user becomes the returned one only on success, and the boolean says which |
| AuthContext.AuthProvider.Logout | src/contexts/AuthContext.tsx:79-87 | the user is always cleared; storage is cleared only when the service succeeded |
| AuthContext.AuthProvider.Register | src/contexts/AuthContext.tsx:89-97 | reports the service's success and changes no state |
| AuthContext.AuthProvider.UpdateUser | src/contexts/AuthContext.tsx:99-111 | on success the user becomes MergeProfile of the stored user (the blank user when none is stored) and that user is stored; otherwise nothing changes |
| AuthContext.LoginThenLogout | src/contexts/AuthContext.tsx:65-87 | signing in and then out leaves no session in the storage or in the store |
| LoginForm.OutcomeOf | src/contexts/AuthContext.tsx:65-77 | the session's login never throws, so the form only ever sees success or refusal |
| LoginForm.LoginFormState.constructor | src/components/Login/LoginForm.tsx:31-32 | not loading, no error |
| LoginForm.LoginFormState.Submit | src/components/Login/LoginForm.tsx:35-72 | a submit while loading changes nothing; an accepted one sends the credentials; success keeps loading and notifies exactly once; refusal shows the invalid-credentials error; an exception shows the generic error; both clear loading |
| LoginForm.SignIn | src/components/Login/LoginForm.tsx:35-72 | wired to the session, the generic error never appears, and the parent is notified exactly when the session holds the returned user |
| TeamService.UserTeams | src/services/teamService.ts:38-40 | exactly the fetched teams in which the user is player 1 or player 2, in order |
| TeamService.GetUserTeams | src/services/teamService.ts:31-58 | found with UserTeams on a success with a team list; a reported failure passed on unchanged; an exception gives the error message and an empty list |
| TeamService.UserTeamsIdempotent | src/services/teamService.ts:38-40 | filtering the user's teams again changes nothing |
| TeamService.OfferedTeamsFromFetchedPage | src/services/teamService.ts:38-40 | the tournament card, fed with the service's list, offers exactly the fetched teams of the user that are not registered |
| Text.ParseInt | src/pages/RegisterPage.tsx:88-90 | a number comes only from text that holds a digit |
| Text.ParseIntOfIntToString | src/pages/RegisterPage.tsx:88-90 | parseInt reads back every integer's decimal text |
| Text.IntToStringInjective | src/pages/AllMatchesPage.tsx:116 | two ids have the same text iff they are equal |
| Text.ToNumber | src/pages/TournamentsPage.tsx:133 | text it cannot read is kept as written and is never empty |
| Text.ToNumberOfIntToString | src/pages/TournamentsPage.tsx:133 | Number reads back every integer's decimal text |
| Text.ToLower | src/pages/TournamentsPage.tsx:161 | same length, each character lower-cased |
| Text.ToLowerIdempotent | src/pages/TournamentsPage.tsx:161 | lower-casing twice equals lower-casing once |
| Text.SearchIgnoresTermCase | src/pages/TournamentsPage.tsx:161-163 | the search depends only on the lower-case form of the term |
| Seqs.FilterCounts | src/components/tournaments/RegisteredTeams.tsx:66-70 | every list filter keeps each occurrence of a value it keeps and no occurrence of a value it drops, so with the order-preserving subsequence property the filtered list is determined |
| Wrappers.FailureText | src/pages/TournamentDetailPage.tsx:303-307 | a reported failure shows its own error text when that text is non-empty; an empty error text and a thrown call show the handler's fallback |

## Left out

- Rendering, styling, animation, routing and navigation (including the redirect two seconds after sign-up) hold no decisions and are not modelled.
- The HTTP services `tournamentService`, `matchService` and `userService`, and the `apiClient` they use, are not part of this model. Each call is a `Response` parameter of the handler that makes it.
- Async interleaving, effect scheduling and in-flight duplicates are not modelled. Each handler is one atomic step.
- LoginForm.LoginFormState.Submit: the 100 ms `setTimeout` before the error is shown is not modelled; the error appears at once.
- formik is modelled only in part:
  - its `errors` are the schema applied to the current values;
  - it clears `isSubmitting` when the submit handler is done;
  - `resetForm` when a create dialog closes is not modelled, because the dialogs' values are not held.
- The create-tournament and create-team schemas are not modelled (date order, positive integer maxTeams, required partner). TournamentsPage.TournamentsView.CreateTournament and TeamsPage.TeamsView.CreateTeam start after formik has validated the form. Only the maxTeams and partner conversions of the request body are modelled.
- The team list fetch and paging of the teams page are not modelled; they have the same shape as `TournamentsPage.TournamentsView.Fetch`. Because that list is not held, TeamsPage.TeamsView.CreateTeam does not model the reload replacing it.
- Yup's e-mail format check is the `isEmail` parameter.
- `JSON.parse` of stored set results is the `parseJson` parameter. Stored text that is not a user's JSON is outside the model. The `'{}'` fallback user is `AuthService.BLANK_USER`.
- Text.ToLower: only ASCII letters are lower-cased; JavaScript lower-cases all of Unicode.
- Text.ParseInt: leading white space, which JavaScript skips, is not skipped, and only base 10 is modelled.
- Text.ToNumber: only "" and plain, optionally negative, digit strings are evaluated. Decimals, exponents and surrounding blanks are kept as `Unparsed` text rather than turned into a number or NaN.
- JavaScript numbers are unbounded integers here; rounding above 2^53 and floating-point values are not modelled.
- Dates are not modelled: date formatting, `toISOString`, and the token expiry check, which reads the clock. Console logging, `changePassword` and the theme switch are not modelled either.
- AuthService.UpdateUser: its contract states only that the merged user is stored and returned. The response's message text, `Perfil actualizado correctamente`, is not modelled.

## Notable behaviour of the code

The model follows the code in each of these cases, and the named lemma shows the behaviour:

- **A lone half-typed set in progress is refused.** The code accepts no submission without a fully filled set unless the status is scheduled or cancelled (`MatchResultForm.PartialSetInProgressRefused`).
- **The winner can be null when the set counts differ.** This happens when the match lacks the leading team's object (`MatchResultForm.DetermineWinnerId`).
- **The match detail table shows a drawn set as won by team 2** (`MatchDetails.DrawnSetShownForTeam2`).
- **The two match views name rounds differently.**
  - The bracket tabs say "Semifinales", "Cuartos" and "Octavos".
  - The detail dialog says "Semifinal" and "Cuartos de final", and has no name for the round before those (`MatchDetails.RoundNamesDifferBelowFinal`).
  - Both agree on "Final" (`MatchDetails.FinalNamedAlike`).
- **Different roles for creating and managing.** Creating tournaments needs role 1 or 2. Managing a tournament needs role 1 or 3, or being its organizer.
- **On the matches page the tabs are neither disjoint nor complete.**
  - A completed match without a completion date is listed twice (`MatchesPage.CompletedWithoutDateListedTwice`).
  - A cancelled match with a completion date and no winner is listed nowhere (`MatchesPage.CancelledFinishedMatchInNoTab`).
- **A reload that throws after a successful create reports the create as failed.** This affects the tournament, team and registration dialogs. The tournament and team create dialogs also stay open.
- **Some error branches are unreachable.** The authentication service and the session store catch every exception. So the sign-up forms' "unknown error" branch, the start-up check's exception branch and the login form's generic error are never reached through the real session (`LoginForm.SignIn`).
