/** The tournament header card: who may manage the tournament, which
    lifecycle button it offers in each status, and the status chip. */
module TournamentInfo {
  import opened Wrappers
  import opened Models

  const ADMIN_ROLE := 1
  const ORGANIZER_ROLE := 3

  /** `canManageTournament`: a signed-in administrator, organizer, or the
      tournament's own creator. */
  predicate CanManageTournament(user: Option<User>, t: Tournament)
  {
    user.Some? && (user.value.userRoleId == ADMIN_ROLE || user.value.userRoleId == ORGANIZER_ROLE || t.organizerId == user.value.id)
  }

  /** Nobody manages a tournament without being signed in, and its creator
      always does. */
  lemma ManagementNeedsSignIn(user: Option<User>, t: Tournament)
    ensures user.None? ==> !CanManageTournament(user, t)
    ensures user.Some? && user.value.id == t.organizerId ==> CanManageTournament(user, t)
  {
  }

  datatype InfoButton = EditButton | OpenRegistrationButton | StartButton | CompleteButton

  /** The one lifecycle step a tournament in `status` offers, if any. */
  function LifecycleButton(status: string): (b: Option<InfoButton>)
    ensures b.Some? ==> b.value != EditButton
    ensures status == COMPLETED ==> b.None?
  {
    if status == DRAFT then Some(OpenRegistrationButton)
    else if status == OPEN then Some(StartButton)
    else if status == IN_PROGRESS then Some(CompleteButton)
    else None
  }

  /** The buttons of the card, in order: nothing for a non-manager; for a
      manager "Editar" then at most one lifecycle button. */
  function Buttons(user: Option<User>, t: Tournament): (r: seq<InfoButton>)
    ensures !CanManageTournament(user, t) ==> r == []
    ensures CanManageTournament(user, t) ==> 1 <= |r| <= 2 && r[0] == EditButton
    ensures forall i :: 1 <= i < |r| ==> Some(r[i]) == LifecycleButton(t.status)
  {
    if !CanManageTournament(user, t) then []
    else
      match LifecycleButton(t.status)
      case None => [EditButton]
      case Some(b) => [EditButton, b]
  }

  /** The lifecycle: draft, open, in progress, completed; nothing after. */
  function NextStatus(status: string): Option<string>
  {
    if status == DRAFT then Some(OPEN)
    else if status == OPEN then Some(IN_PROGRESS)
    else if status == IN_PROGRESS then Some(COMPLETED)
    else None
  }

  /** Position in the lifecycle, for the known statuses. */
  function Stage(status: string): (n: nat)
    ensures n <= 3
  {
    if status == DRAFT then 0 else if status == OPEN then 1 else if status == IN_PROGRESS then 2 else 3
  }

  /** The status a lifecycle button moves the tournament to. */
  function Target(b: InfoButton): string
    requires b != EditButton
  {
    match b
    case OpenRegistrationButton => OPEN
    case StartButton => IN_PROGRESS
    case CompleteButton => COMPLETED
  }

  /** A manager is offered a lifecycle button exactly when the status has a
      next step, and the button moves to that next step, one stage forward:
      never a skipped or backward transition. */
  lemma {:induction false} ButtonsFollowLifecycle(user: Option<User>, t: Tournament)
    requires CanManageTournament(user, t)
    ensures |Buttons(user, t)| == 2 <==> NextStatus(t.status).Some?
    ensures |Buttons(user, t)| == 2 ==>
      NextStatus(t.status) == Some(Target(Buttons(user, t)[1]))
      && Stage(Target(Buttons(user, t)[1])) == Stage(t.status) + 1
  {
    assert DRAFT[0] != OPEN[0] && DRAFT[0] != IN_PROGRESS[0] && DRAFT[0] != COMPLETED[0];
    assert OPEN[0] != IN_PROGRESS[0] && OPEN[0] != COMPLETED[0] && IN_PROGRESS[0] != COMPLETED[0];
  }

  /** "Finalizar torneo" is never offered on a draft. */
  lemma NoCompleteOnDraft(user: Option<User>, t: Tournament)
    requires t.status == DRAFT
    ensures CompleteButton !in Buttons(user, t) && StartButton !in Buttons(user, t)
  {
  }

  datatype ChipColor = DefaultColor | InfoColor | PrimaryColor | SuccessColor

  /** The status chip: a label for each known status; any other status is
      shown as its raw value. */
  function StatusChip(status: string): (chip: (string, Option<ChipColor>))
    ensures status == DRAFT ==> chip == ("Borrador", Some(DefaultColor))
    ensures status == OPEN ==> chip == ("Inscripciones abiertas", Some(InfoColor))
    ensures status == IN_PROGRESS ==> chip == ("En progreso", Some(PrimaryColor))
    ensures status == COMPLETED ==> chip == ("Completado", Some(SuccessColor))
    ensures status !in {DRAFT, OPEN, IN_PROGRESS, COMPLETED} ==> chip == (status, None)
  {
    if status == DRAFT then ("Borrador", Some(DefaultColor))
    else if status == OPEN then ("Inscripciones abiertas", Some(InfoColor))
    else if status == IN_PROGRESS then ("En progreso", Some(PrimaryColor))
    else if status == COMPLETED then ("Completado", Some(SuccessColor))
    else (status, None)
  }
}
