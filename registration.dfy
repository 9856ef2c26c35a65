/** The sign-up form's values, its validation schema and the conversion of
    its numeric fields. The same schema and conversion appear in both the
    one-page form and the four-step wizard. */
module Registration {
  import opened Wrappers
  import opened Text

  /** Every field of the form, as typed (all text). */
  datatype RegistrationValues = RegistrationValues(
    name: string,
    username: string,
    email: string,
    password: string,
    passwordConfirmation: string,
    phone: string,
    playerLevel: string,
    dominantHand: string,
    experienceYears: string,
    heightCm: string,
    weightKg: string,
    city: string,
    country: string,
    playingPosition: string,
    favoriteRacket: string)

  const EMPTY_VALUES := RegistrationValues("", "", "", "", "", "", "", "", "", "", "", "", "", "", "")

  datatype Field =
    | Name | Username | Email | Password | PasswordConfirmation | Phone | PlayerLevel | DominantHand
    | ExperienceYears | HeightCm | WeightKg | City | Country | PlayingPosition | FavoriteRacket

  const MIN_PASSWORD_LENGTH := 8

  /** The schema's verdict on one field: whether `errors[field]` is set.
      `isEmail` is the e-mail format test of the validation library. */
  predicate FieldInvalid(v: RegistrationValues, f: Field, isEmail: string -> bool)
  {
    match f
    case Name => v.name == ""
    case Username => v.username == ""
    case Email => v.email == "" || !isEmail(v.email)
    case Password => v.password == "" || |v.password| < MIN_PASSWORD_LENGTH
    case PasswordConfirmation => v.passwordConfirmation == "" || v.passwordConfirmation != v.password
    case Phone => v.phone == ""
    case PlayerLevel => v.playerLevel == ""
    case DominantHand => v.dominantHand == ""
    case _ => false
  }

  /** The whole schema passes. */
  predicate FormValid(v: RegistrationValues, isEmail: string -> bool)
  {
    forall f :: !FieldInvalid(v, f, isEmail)
  }

  /** The schema spelled out: eight required fields, a password of at least
      eight characters and a confirmation equal to it; the seven profile
      fields are optional. */
  lemma FormValidMeans(v: RegistrationValues, isEmail: string -> bool)
    ensures FormValid(v, isEmail) <==>
      v.name != "" && v.username != "" && v.email != "" && isEmail(v.email) &&
      |v.password| >= MIN_PASSWORD_LENGTH && v.passwordConfirmation == v.password &&
      v.phone != "" && v.playerLevel != "" && v.dominantHand != ""
  {
    if FormValid(v, isEmail) {
      assert !FieldInvalid(v, Name, isEmail) && !FieldInvalid(v, Username, isEmail);
      assert !FieldInvalid(v, Email, isEmail) && !FieldInvalid(v, Password, isEmail);
      assert !FieldInvalid(v, PasswordConfirmation, isEmail) && !FieldInvalid(v, Phone, isEmail);
      assert !FieldInvalid(v, PlayerLevel, isEmail) && !FieldInvalid(v, DominantHand, isEmail);
    } else {
      var f :| FieldInvalid(v, f, isEmail);
    }
  }

  /** The body of `POST /register`: the values with the three numeric
      fields converted. */
  datatype RegistrationRequest = RegistrationRequest(
    name: string,
    username: string,
    email: string,
    password: string,
    passwordConfirmation: string,
    phone: string,
    playerLevel: string,
    dominantHand: string,
    experienceYears: Option<Num>,
    heightCm: Option<Num>,
    weightKg: Option<Num>,
    city: string,
    country: string,
    playingPosition: string,
    favoriteRacket: string)

  /** An empty numeric field is left out; any other goes through `parseInt`. */
  function OptionalInt(field: string): (n: Option<Num>)
    ensures n.None? <==> field == ""
    ensures n.Some? ==> n.value == ParseInt(field)
  {
    if field != "" then Some(ParseInt(field)) else None
  }

  /** `processedValues`. */
  function Processed(v: RegistrationValues): (r: RegistrationRequest)
    ensures r.experienceYears == OptionalInt(v.experienceYears)
    ensures r.heightCm == OptionalInt(v.heightCm)
    ensures r.weightKg == OptionalInt(v.weightKg)
    ensures r.name == v.name && r.username == v.username && r.email == v.email
    ensures r.password == v.password && r.passwordConfirmation == v.passwordConfirmation
    ensures r.phone == v.phone && r.playerLevel == v.playerLevel && r.dominantHand == v.dominantHand
    ensures r.city == v.city && r.country == v.country
    ensures r.playingPosition == v.playingPosition && r.favoriteRacket == v.favoriteRacket
  {
    RegistrationRequest(v.name, v.username, v.email, v.password, v.passwordConfirmation, v.phone,
      v.playerLevel, v.dominantHand, OptionalInt(v.experienceYears), OptionalInt(v.heightCm),
      OptionalInt(v.weightKg), v.city, v.country, v.playingPosition, v.favoriteRacket)
  }

  /** A number typed into a numeric field reaches the API as that number. */
  lemma ProcessedNumbersRoundTrip(v: RegistrationValues, years: int, height: int, weight: int)
    requires v.experienceYears == IntToString(years)
    requires v.heightCm == IntToString(height)
    requires v.weightKg == IntToString(weight)
    ensures Processed(v).experienceYears == Some(Int(years))
    ensures Processed(v).heightCm == Some(Int(height))
    ensures Processed(v).weightKg == Some(Int(weight))
  {
    ParseIntOfIntToString(years);
    ParseIntOfIntToString(height);
    ParseIntOfIntToString(weight);
  }

  const REGISTER_REFUSED := "Error al registrar el usuario. Por favor, verifica la información proporcionada."
}
