/** The session store every page reads: the signed-in user and whether the
    start-up check is still running. Its operations go through the
    authentication service, which never throws, and report success as a
    boolean. */
module AuthContext {
  import opened Wrappers
  import opened Models
  import opened AuthService

  class AuthProvider {
    var user: Option<User>
    var isLoading: bool
    const storage: LocalStorage

    constructor (storage: LocalStorage)
      ensures user == None && isLoading && this.storage == storage
    {
      user, isLoading := None, true;
      this.storage := storage;
    }

    /** `isAuthenticated`: exactly "a user is held". */
    predicate IsAuthenticated()
      reads this
    {
      user.Some?
    }

    /** The start-up effect: a stored user is shown at once; when a token is
        stored, `getCurrentUser` (its reply is `current`) either confirms the
        user, who is stored again, or ends the session. */
    method Startup(current: Response<User>)
      modifies this`user, this`isLoading, storage
      ensures !isLoading
      ensures !IsAuthenticatedIn(old(storage.items)) ==> storage.items == old(storage.items)
      ensures !IsAuthenticatedIn(old(storage.items)) && UserIn(old(storage.items)).Some? ==>
        user == UserIn(old(storage.items))
      ensures !IsAuthenticatedIn(old(storage.items)) && UserIn(old(storage.items)).None? ==>
        user == old(user)
      ensures IsAuthenticatedIn(old(storage.items)) && current.Succeeded? ==>
        user == Some(current.data) && storage.items == old(storage.items)[USER_KEY := UserRecord(current.data)]
      ensures IsAuthenticatedIn(old(storage.items)) && !current.Succeeded? ==>
        user == None && storage.items == AfterLogout(old(storage.items))
    {
      var stored := UserIn(storage.items);
      if stored.Some? {
        user := stored;
      }
      if IsAuthenticatedIn(storage.items) {
        var response := Outcome(current, CURRENT_USER_ERROR);
        if response.Ok? {
          user := Some(response.data);
          storage.SetItem(USER_KEY, UserRecord(response.data));
        } else {
          storage.RemoveItem(TOKEN_KEY);
          storage.RemoveItem(USER_KEY);
          assert storage.items == AfterLogout(old(storage.items));
          user := None;
        }
      }
      isLoading := false;
    }

    /** `login`: the user becomes the one the service returns, and only on
        success; the boolean reports which. */
    method Login(username: string, password: string, response: Response<LoginData>) returns (ok: bool)
      modifies this`user, storage
      ensures ok <==> response.Succeeded?
      ensures ok ==> user == Some(response.data.user) && storage.items == AfterLogin(old(storage.items), response.data)
      ensures !ok ==> user == old(user) && storage.items == old(storage.items)
    {
      var _, result := AuthService.Login(storage, Credentials(username, password), response);
      if result.Ok? {
        user := Some(result.data.user);
        return true;
      }
      return false;
    }

    /** `logout`: the user is cleared whatever the service replies; the
        stored session is removed only when the reply is a success. */
    method Logout(response: Response<()>)
      modifies this`user, storage
      ensures user == None && !IsAuthenticated()
      ensures response.Succeeded? ==> storage.items == AfterLogout(old(storage.items))
      ensures !response.Succeeded? ==> storage.items == old(storage.items)
    {
      var _ := AuthService.Logout(storage, response);
      user := None;
    }

    /** `register`: reports the service's success and never signs anyone in. */
    method Register(response: Response<User>) returns (ok: bool)
      ensures ok <==> response.Succeeded?
    {
      var result := Outcome(response, REGISTER_ERROR);
      ok := result.Ok?;
    }

    /** `updateUser`: on success the held user becomes the merged user the
        service stored. */
    method UpdateUser(response: Response<ProfileReply>) returns (ok: bool)
      modifies this`user, storage
      ensures ok <==> response.Succeeded?
      ensures ok ==> user.Some? && storage.items == old(storage.items)[USER_KEY := UserRecord(user.value)]
      ensures ok ==>
        var current := if UserIn(old(storage.items)).Some? then UserIn(old(storage.items)).value else BLANK_USER;
        user == Some(MergeProfile(current, response.data))
      ensures !ok ==> user == old(user) && storage.items == old(storage.items)
    {
      var result := AuthService.UpdateUser(storage, response);
      if result.Ok? {
        user := Some(result.data);
        return true;
      }
      return false;
    }
  }

  /** Signing in and then out leaves no session, in the store or in the
      provider, whatever the storage held before. */
  method LoginThenLogout(storage: LocalStorage, username: string, password: string, d: LoginData)
    returns (provider: AuthProvider)
    modifies storage
    ensures provider.storage == storage && !provider.IsAuthenticated()
    ensures !IsAuthenticatedIn(storage.items) && UserIn(storage.items) == None
  {
    provider := new AuthProvider(storage);
    var ok := provider.Login(username, password, Succeeded(d));
    provider.Logout(Succeeded(()));
    LogoutEndsSession(AfterLogin(old(storage.items), d));
  }
}
