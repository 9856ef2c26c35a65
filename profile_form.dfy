/** The profile form: its initial values taken from the signed-in user,
    the request body it sends to `PUT /profile`, and its edit/loading
    state. */
module ProfileForm {
  import opened Wrappers
  import opened Text
  import opened Models
  import AuthService

  /** A numeric field's value: the user's number when it was loaded, or the
      text typed since (`''` when empty). */
  datatype FormValue = Typed(text: string) | Held(number: int)

  datatype ProfileValues = ProfileValues(
    name: string,
    email: string,
    playerLevel: string,
    dominantHand: string,
    experienceYears: FormValue,
    heightCm: FormValue,
    weightKg: FormValue,
    city: string,
    country: string,
    playingPosition: string,
    favoriteRacket: string)

  /** `value || ''` for an optional text. */
  function OrEmpty(s: Option<string>): (r: string)
    ensures IsTruthyText(s) ==> r == s.value
    ensures !IsTruthyText(s) ==> r == ""
  {
    if s.Some? then s.value else ""
  }

  /** `value || ''` for an optional number: 0 and a missing value give ''. */
  function NumberOrEmpty(n: Option<int>): (v: FormValue)
    ensures IsTruthy(n) ==> v == Held(n.value)
    ensures !IsTruthy(n) ==> v == Typed("")
  {
    if IsTruthy(n) then Held(n.value) else Typed("")
  }

  function InitialValues(u: User): (v: ProfileValues)
    ensures v.name == u.name && v.email == u.email
    ensures v.playerLevel == OrEmpty(u.playerLevel) && v.dominantHand == OrEmpty(u.dominantHand)
    ensures v.experienceYears == NumberOrEmpty(u.experienceYears)
    ensures v.heightCm == NumberOrEmpty(u.heightCm) && v.weightKg == NumberOrEmpty(u.weightKg)
    ensures v.city == OrEmpty(u.city) && v.country == OrEmpty(u.country)
    ensures v.playingPosition == OrEmpty(u.playingPosition) && v.favoriteRacket == OrEmpty(u.favoriteRacket)
  {
    ProfileValues(u.name, u.email, OrEmpty(u.playerLevel), OrEmpty(u.dominantHand),
      NumberOrEmpty(u.experienceYears), NumberOrEmpty(u.heightCm), NumberOrEmpty(u.weightKg),
      OrEmpty(u.city), OrEmpty(u.country), OrEmpty(u.playingPosition), OrEmpty(u.favoriteRacket))
  }

  /** The body sent to `PUT /profile`: the API's snake_case names and the
      front end's camelCase names side by side. */
  datatype ProfilePayload = ProfilePayload(
    name: string,
    level: string,
    playing_hand: string,
    playing_position: string,
    favorite_racket: string,
    experience_years: Option<Numeric>,
    height_cm: Option<Numeric>,
    weight_kg: Option<Numeric>,
    playerLevel: string,
    dominantHand: string,
    playingPosition: string,
    favoriteRacket: string,
    experienceYears: Option<Numeric>,
    heightCm: Option<Numeric>,
    weightKg: Option<Numeric>,
    city: Option<string>,
    country: Option<string>)

  /** `v !== '' ? Number(v) : null`. */
  function NumberOrNull(v: FormValue): (n: Option<Numeric>)
    ensures n.None? <==> v == Typed("")
    ensures v.Held? ==> n == Some(Integer(v.number))
    ensures v.Typed? && v.text != "" ==> n == Some(ToNumber(v.text))
  {
    match v
    case Typed(t) => if t != "" then Some(ToNumber(t)) else None
    case Held(k) => Some(Integer(k))
  }

  /** `v || null`. */
  function TextOrNull(s: string): (r: Option<string>)
    ensures r.None? <==> s == ""
    ensures r.Some? ==> r.value == s
  {
    if s != "" then Some(s) else None
  }

  /** `apiPayload`. */
  function ApiPayload(v: ProfileValues): (p: ProfilePayload)
    ensures p.name == v.name
    ensures p.level == v.playerLevel && p.playing_hand == v.dominantHand
    ensures p.playing_position == v.playingPosition && p.favorite_racket == v.favoriteRacket
    ensures p.playerLevel == p.level && p.dominantHand == p.playing_hand
    ensures p.playingPosition == p.playing_position && p.favoriteRacket == p.favorite_racket
    ensures p.experience_years == NumberOrNull(v.experienceYears) && p.experienceYears == p.experience_years
    ensures p.height_cm == NumberOrNull(v.heightCm) && p.heightCm == p.height_cm
    ensures p.weight_kg == NumberOrNull(v.weightKg) && p.weightKg == p.weight_kg
    ensures p.city == TextOrNull(v.city) && p.country == TextOrNull(v.country)
  {
    var years := NumberOrNull(v.experienceYears);
    var height := NumberOrNull(v.heightCm);
    var weight := NumberOrNull(v.weightKg);
    ProfilePayload(v.name, v.playerLevel, v.dominantHand, v.playingPosition, v.favoriteRacket,
      years, height, weight, v.playerLevel, v.dominantHand, v.playingPosition, v.favoriteRacket,
      years, height, weight, TextOrNull(v.city), TextOrNull(v.country))
  }

  /** The e-mail field is shown but never sent. */
  lemma PayloadIgnoresEmail(v: ProfileValues, email: string)
    ensures ApiPayload(v.(email := email)) == ApiPayload(v)
  {
  }

  /** The number a numeric property of the reply holds for a sent value. */
  function EchoNumber(n: Option<Numeric>): (k: Option<int>)
    ensures n.Some? && n.value.Integer? ==> k == Some(n.value.value)
    ensures !(n.Some? && n.value.Integer?) ==> k.None?
  {
    if n.Some? && n.value.Integer? then Some(n.value.value) else None
  }

  /** The reply of a server that stores the payload as it was sent. */
  function Echo(p: ProfilePayload): (r: AuthService.ProfileReply)
    ensures r.name == p.name && r.level == Some(p.level) && r.playing_hand == Some(p.playing_hand)
    ensures r.experience_years == EchoNumber(p.experience_years) && r.city == p.city
  {
    AuthService.ProfileReply(p.name, Some(p.level), Some(p.playing_hand), Some(p.playing_position),
      Some(p.favorite_racket), EchoNumber(p.experience_years), EchoNumber(p.height_cm),
      EchoNumber(p.weight_kg), p.city, p.country)
  }

  /** A loaded text that the server echoes back keeps its old value. */
  lemma TextEchoKept(s: Option<string>)
    ensures AuthService.OrText(Some(OrEmpty(s)), s) == s
    ensures AuthService.OrText(TextOrNull(OrEmpty(s)), s) == s
  {
  }

  /** A loaded number that the server echoes back keeps its old value. */
  lemma NumberEchoKept(n: Option<int>)
    ensures AuthService.OrNumber(EchoNumber(NumberOrNull(NumberOrEmpty(n))), n) == n
  {
  }

  /** Saving the profile without editing it, against a server that echoes
      what it receives, leaves the stored user exactly as it was. */
  lemma {:induction false} UnchangedProfileRoundTrip(u: User)
    ensures AuthService.MergeProfile(u, Echo(ApiPayload(InitialValues(u)))) == u
  {
    TextEchoKept(u.playerLevel); TextEchoKept(u.dominantHand);
    TextEchoKept(u.playingPosition); TextEchoKept(u.favoriteRacket);
    TextEchoKept(u.city); TextEchoKept(u.country);
    NumberEchoKept(u.experienceYears); NumberEchoKept(u.heightCm); NumberEchoKept(u.weightKg);
  }

  /** The schema: name, e-mail (well formed), level and hand are required. */
  predicate ProfileValid(v: ProfileValues, isEmail: string -> bool)
  {
    v.name != "" && v.email != "" && isEmail(v.email) && v.playerLevel != "" && v.dominantHand != ""
  }

  class ProfileFormState {
    var values: ProfileValues
    var loading: bool
    var editMode: bool
    /** Whether `onSuccess` has been called. */
    var notified: bool

    constructor (u: User)
      ensures values == InitialValues(u) && !loading && !editMode && !notified
    {
      values, loading, editMode, notified := InitialValues(u), false, false, false;
    }

    /** "Editar Información" / "Cancelar". */
    method ToggleEdit()
      modifies this`editMode
      ensures editMode == !old(editMode)
    {
      editMode := !editMode;
    }

    method Edit(v: ProfileValues)
      modifies this`values
      ensures values == v
    {
      values := v;
    }

    /** The form's submit: a form that passes the schema is sent as
        `apiPayload`; edit mode is left only when the update reports
        success (`updated`), and loading always ends cleared. */
    method Submit(isEmail: string -> bool, updated: bool) returns (sent: Option<ProfilePayload>)
      modifies this`loading, this`editMode, this`notified
      ensures sent.Some? <==> ProfileValid(values, isEmail)
      ensures sent.Some? ==> sent.value == ApiPayload(values) && !loading
      ensures sent.Some? && updated ==> !editMode && notified
      ensures !(sent.Some? && updated) ==> editMode == old(editMode) && notified == old(notified)
      ensures sent.None? ==> loading == old(loading)
    {
      if !ProfileValid(values, isEmail) {
        return None;
      }
      sent := Some(ApiPayload(values));
      loading := true;
      if updated {
        editMode := false;
        notified := true;
      }
      loading := false;
    }
  }
}
