/** The authentication service: it talks to the `/auth`, `/register` and
    `/profile` endpoints and keeps the session (the token and the signed-in
    user) in the browser's local storage. Every function of the service
    catches its own exceptions and hands back `{success: false, error}`. */
module AuthService {
  import opened Wrappers
  import opened Models

  const TOKEN_KEY := "token"
  const USER_KEY := "user"
  const IDENTITY := "postman"

  const LOGIN_ERROR := "Error al iniciar sesión"
  const REGISTER_ERROR := "Error al registrar el usuario"
  const CURRENT_USER_ERROR := "Error al obtener información del usuario"
  const UPDATE_ERROR := "Error al actualizar la información del usuario"
  const REFRESH_ERROR := "Error al refrescar el token"
  const LOGOUT_ERROR := "Error al cerrar sesión"

  /** A local-storage value: plain text (the token) or the JSON text of a
      user, held here as the user it encodes. */
  datatype Stored = Text(text: string) | UserRecord(user: User)

  /** A storage item is truthy when its text is non-empty; a user's JSON
      text never is empty. */
  predicate Truthy(s: Stored)
  {
    s.UserRecord? || s.text != ""
  }

  /** The browser's local storage: a map from keys to stored values. */
  class LocalStorage {
    var items: map<string, Stored>

    constructor ()
      ensures items == map[]
    {
      items := map[];
    }

    method SetItem(key: string, value: Stored)
      modifies this
      ensures items == old(items)[key := value]
    {
      items := items[key := value];
    }

    method RemoveItem(key: string)
      modifies this
      ensures items == old(items) - {key}
    {
      items := items - {key};
    }
  }

  /** `isAuthenticated`: a truthy token is stored. */
  predicate IsAuthenticatedIn(items: map<string, Stored>)
  {
    TOKEN_KEY in items && Truthy(items[TOKEN_KEY])
  }

  /** `getUser`: the stored user, or null when none (or an empty text) is
      stored. A stored text other than a user's JSON is outside the model. */
  function UserIn(items: map<string, Stored>): (u: Option<User>)
    ensures u.Some? <==> USER_KEY in items && items[USER_KEY].UserRecord?
    ensures u.Some? ==> items[USER_KEY] == UserRecord(u.value)
  {
    if USER_KEY in items && items[USER_KEY].UserRecord? then Some(items[USER_KEY].user) else None
  }

  /** What a service function returns. */
  datatype ServiceResult<+T> = Ok(data: T) | Failed(error: string)

  /** The error of a failed call: a reply with `success: false` is handed
      back as it came; a thrown call becomes `error.message || fallback`. */
  function FailureOf<T>(r: Response<T>, fallback: string): (e: string)
    requires !r.Succeeded?
    ensures r.Rejected? ==> e == r.error
    ensures r.Threw? && r.message != "" ==> e == r.message
    ensures r.Threw? && r.message == "" ==> e == fallback
    ensures r.Threw? && fallback != "" ==> e != ""
  {
    if r.Rejected? then r.error else if r.message != "" then r.message else fallback
  }

  function Outcome<T>(r: Response<T>, fallback: string): (o: ServiceResult<T>)
    ensures o.Ok? <==> r.Succeeded?
    ensures o.Ok? ==> o.data == r.data
    ensures o.Failed? ==> o.error == FailureOf(r, fallback)
  {
    if r.Succeeded? then Ok(r.data) else Failed(FailureOf(r, fallback))
  }

  datatype Credentials = Credentials(username: string, password: string)

  /** The body of `POST /auth`. */
  datatype LoginRequest = LoginRequest(username: string, password: string, identity: string)

  function WithIdentity(c: Credentials): (r: LoginRequest)
    ensures r.username == c.username && r.password == c.password && r.identity == IDENTITY
  {
    LoginRequest(c.username, c.password, IDENTITY)
  }

  /** The data of a successful login or token refresh: the user and the
      token text of `user_token`. */
  datatype LoginData = LoginData(user: User, token: string)

  /** The storage after a successful login: token and user are written. */
  function AfterLogin(items: map<string, Stored>, d: LoginData): map<string, Stored>
  {
    items[TOKEN_KEY := Text(d.token)][USER_KEY := UserRecord(d.user)]
  }

  /** The storage after a successful logout: token and user are removed. */
  function AfterLogout(items: map<string, Stored>): map<string, Stored>
  {
    items - {TOKEN_KEY, USER_KEY}
  }

  /** The storage after a successful refresh: only the token is replaced. */
  function AfterRefresh(items: map<string, Stored>, token: string): map<string, Stored>
  {
    items[TOKEN_KEY := Text(token)]
  }

  /** After a login the session holds the user, and counts as authenticated
      exactly when the token is non-empty; no other key changes. */
  lemma LoginEstablishesSession(items: map<string, Stored>, d: LoginData)
    ensures UserIn(AfterLogin(items, d)) == Some(d.user)
    ensures IsAuthenticatedIn(AfterLogin(items, d)) <==> d.token != ""
    ensures forall k :: k != TOKEN_KEY && k != USER_KEY ==>
      (k in AfterLogin(items, d) <==> k in items) && (k in items ==> AfterLogin(items, d)[k] == items[k])
  {
    assert TOKEN_KEY != USER_KEY by { assert TOKEN_KEY[0] != USER_KEY[0]; }
  }

  /** After a logout there is no session, whatever there was before; no
      other key changes. */
  lemma LogoutEndsSession(items: map<string, Stored>)
    ensures UserIn(AfterLogout(items)) == None && !IsAuthenticatedIn(AfterLogout(items))
    ensures forall k :: k != TOKEN_KEY && k != USER_KEY ==>
      (k in AfterLogout(items) <==> k in items) && (k in items ==> AfterLogout(items)[k] == items[k])
  {
  }

  /** A refresh keeps the stored user. */
  lemma RefreshKeepsUser(items: map<string, Stored>, token: string)
    ensures UserIn(AfterRefresh(items, token)) == UserIn(items)
    ensures IsAuthenticatedIn(AfterRefresh(items, token)) <==> token != ""
  {
    assert TOKEN_KEY != USER_KEY by { assert TOKEN_KEY[0] != USER_KEY[0]; }
  }

  /** `login`: sends the credentials with the fixed identity; a successful
      reply writes the token and the user. */
  method Login(storage: LocalStorage, c: Credentials, response: Response<LoginData>)
    returns (request: LoginRequest, result: ServiceResult<LoginData>)
    modifies storage
    ensures request == WithIdentity(c)
    ensures result == Outcome(response, LOGIN_ERROR)
    ensures response.Succeeded? ==> storage.items == AfterLogin(old(storage.items), response.data)
    ensures !response.Succeeded? ==> storage.items == old(storage.items)
  {
    request := WithIdentity(c);
    if response.Succeeded? {
      storage.SetItem(TOKEN_KEY, Text(response.data.token));
      storage.SetItem(USER_KEY, UserRecord(response.data.user));
    }
    result := Outcome(response, LOGIN_ERROR);
  }

  /** The data `PUT /profile` answers with, under the API's own names;
      each optional property may be missing. */
  datatype ProfileReply = ProfileReply(
    name: string,
    level: Option<string>,
    playing_hand: Option<string>,
    playing_position: Option<string>,
    favorite_racket: Option<string>,
    experience_years: Option<int>,
    height_cm: Option<int>,
    weight_kg: Option<int>,
    city: Option<string>,
    country: Option<string>)

  /** `a || b` on optional texts and numbers. */
  function OrText(a: Option<string>, b: Option<string>): (r: Option<string>)
    ensures r == if IsTruthyText(a) then a else b
  {
    if IsTruthyText(a) then a else b
  }

  function OrNumber(a: Option<int>, b: Option<int>): (r: Option<int>)
    ensures r == if IsTruthy(a) then a else b
  {
    if IsTruthy(a) then a else b
  }

  /** The user `updateUser` stores: the current user with the name from
      the reply and each mapped property from the reply when truthy. */
  function MergeProfile(current: User, reply: ProfileReply): (u: User)
    ensures u.name == reply.name
    ensures u.id == current.id && u.email == current.email && u.phone == current.phone
    ensures u.userRoleId == current.userRoleId && u.userStatusId == current.userStatusId && u.photo == current.photo
    ensures u.playerLevel == OrText(reply.level, current.playerLevel)
    ensures u.dominantHand == OrText(reply.playing_hand, current.dominantHand)
    ensures u.playingPosition == OrText(reply.playing_position, current.playingPosition)
    ensures u.favoriteRacket == OrText(reply.favorite_racket, current.favoriteRacket)
    ensures u.experienceYears == OrNumber(reply.experience_years, current.experienceYears)
    ensures u.heightCm == OrNumber(reply.height_cm, current.heightCm)
    ensures u.weightKg == OrNumber(reply.weight_kg, current.weightKg)
    ensures u.city == OrText(reply.city, current.city) && u.country == OrText(reply.country, current.country)
  {
    current.(
      name := reply.name,
      playerLevel := OrText(reply.level, current.playerLevel),
      dominantHand := OrText(reply.playing_hand, current.dominantHand),
      playingPosition := OrText(reply.playing_position, current.playingPosition),
      favoriteRacket := OrText(reply.favorite_racket, current.favoriteRacket),
      experienceYears := OrNumber(reply.experience_years, current.experienceYears),
      heightCm := OrNumber(reply.height_cm, current.heightCm),
      weightKg := OrNumber(reply.weight_kg, current.weightKg),
      city := OrText(reply.city, current.city),
      country := OrText(reply.country, current.country))
  }

  /** Merging the same reply again changes nothing more. */
  lemma MergeProfileIdempotent(current: User, reply: ProfileReply)
    ensures MergeProfile(MergeProfile(current, reply), reply) == MergeProfile(current, reply)
  {
  }

  /** A reply that carries only the current name leaves the user as it was. */
  lemma NameOnlyReplyKeepsUser(current: User)
    ensures MergeProfile(current, ProfileReply(current.name, None, None, None, None, None, None, None, None, None)) == current
  {
  }

  /** The user decoded from `'{}'` when no user is stored: every property
      missing, here its empty or zero value. */
  const BLANK_USER := User(0, "", "", None, 0, 0, None, None, None, None, None, None, None, None, None, None)

  /** `updateUser`: a successful reply merges into the stored user and
      stores the result, which is also returned. */
  method UpdateUser(storage: LocalStorage, response: Response<ProfileReply>) returns (result: ServiceResult<User>)
    modifies storage
    ensures response.Succeeded? ==>
      var current := if UserIn(old(storage.items)).Some? then UserIn(old(storage.items)).value else BLANK_USER;
      result == Ok(MergeProfile(current, response.data)) &&
      storage.items == old(storage.items)[USER_KEY := UserRecord(result.data)]
    ensures !response.Succeeded? ==>
      result == Failed(FailureOf(response, UPDATE_ERROR)) && storage.items == old(storage.items)
  {
    if response.Succeeded? {
      var stored := UserIn(storage.items);
      var current := if stored.Some? then stored.value else BLANK_USER;
      var updated := MergeProfile(current, response.data);
      storage.SetItem(USER_KEY, UserRecord(updated));
      result := Ok(updated);
    } else {
      result := Failed(FailureOf(response, UPDATE_ERROR));
    }
  }

  /** `refreshToken`: a successful reply replaces the token only. */
  method RefreshToken(storage: LocalStorage, response: Response<LoginData>) returns (result: ServiceResult<LoginData>)
    modifies storage
    ensures result == Outcome(response, REFRESH_ERROR)
    ensures response.Succeeded? ==> storage.items == AfterRefresh(old(storage.items), response.data.token)
    ensures !response.Succeeded? ==> storage.items == old(storage.items)
  {
    if response.Succeeded? {
      storage.SetItem(TOKEN_KEY, Text(response.data.token));
    }
    result := Outcome(response, REFRESH_ERROR);
  }

  /** `logout`: only a successful reply removes the token and the user. */
  method Logout(storage: LocalStorage, response: Response<()>) returns (result: ServiceResult<()>)
    modifies storage
    ensures result == Outcome(response, LOGOUT_ERROR)
    ensures response.Succeeded? ==> storage.items == AfterLogout(old(storage.items))
    ensures !response.Succeeded? ==> storage.items == old(storage.items)
  {
    if response.Succeeded? {
      storage.RemoveItem(TOKEN_KEY);
      storage.RemoveItem(USER_KEY);
      assert storage.items == AfterLogout(old(storage.items));
    }
    result := Outcome(response, LOGOUT_ERROR);
  }
}
