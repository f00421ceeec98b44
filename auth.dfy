/** The session service: a single object holding `isAuthenticated` and the
    cached `user`, backed by the `authToken` and `user` storage keys. */
module Auth {
  import opened Common
  import opened Browser
  import opened UserJson
  import Api

  /** What the authentication endpoint answers. */
  datatype AuthResponse = AuthResponse(success: bool, user: User, token: string, message: string)

  /** The placeholder endpoint `simulateApiCall`: it always succeeds; the
      name is "first last" when a first name is given, else "John Doe";
      the token ends with the current time in milliseconds. */
  function SimulatedResponse(firstName: string, lastName: Option<string>, email: string,
                             nowMs: nat, nowIso: string): (r: AuthResponse)
    ensures r.success && r.message == "Success"
    ensures r.user.id == 1 && r.user.email == email && r.user.joinDate == nowIso
    ensures Truthy(firstName) ==> r.user.name == firstName + " " + lastName.GetOr("undefined")
    ensures !Truthy(firstName) ==> r.user.name == "John Doe"
    ensures r.token == "mock-jwt-token-" + NatToString(nowMs)
  {
    var name := if firstName != "" then firstName + " " + lastName.GetOr("undefined") else "John Doe";
    AuthResponse(true, User(1, name, email, nowIso), "mock-jwt-token-" + NatToString(nowMs), "Success")
  }

  /** Storage after a successful login or signup: the token and the user's
      JSON text are written, nothing else changes. */
  function StorageAfterLogin(items: map<string, string>, resp: AuthResponse): (after: map<string, string>)
    ensures after.Keys == items.Keys + {Api.AuthTokenKey, Api.UserKey}
    ensures after[Api.AuthTokenKey] == resp.token && after[Api.UserKey] == Stringify(resp.user)
    ensures forall k :: k in items && k != Api.AuthTokenKey && k != Api.UserKey ==> after[k] == items[k]
  {
    items[Api.AuthTokenKey := resp.token][Api.UserKey := Stringify(resp.user)]
  }

  class AuthService {
    var isAuthenticated: bool
    var user: Option<User>
    const storage: LocalStorage

    constructor (storage: LocalStorage)
      ensures !isAuthenticated && user == None && this.storage == storage
    {
      this.storage := storage;
      isAuthenticated := false;
      user := None;
    }

    /** The success branch shared by `login` and `signup`. */
    method StartSession(resp: AuthResponse)
      modifies this, storage
      ensures isAuthenticated && user == Some(resp.user)
      ensures storage.items == StorageAfterLogin(old(storage.items), resp)
    {
      isAuthenticated := true;
      user := Some(resp.user);
      storage.SetItem(Api.AuthTokenKey, resp.token);
      storage.SetItem(Api.UserKey, Stringify(resp.user));
    }

    /** `login(email, password)` with the endpoint's answer `resp`: on
        success the session starts; otherwise it throws the answer's message
        (else "Login failed") and nothing changes. */
    method Login(email: string, password: string, resp: AuthResponse) returns (r: Result<User>)
      modifies this, storage
      ensures resp.success ==> r == Ok(resp.user) && isAuthenticated && user == Some(resp.user) &&
                               storage.items == StorageAfterLogin(old(storage.items), resp)
      ensures !resp.success ==> r == Err(OrElse(resp.message, "Login failed")) &&
                                isAuthenticated == old(isAuthenticated) && user == old(user) &&
                                storage.items == old(storage.items)
    {
      if resp.success {
        StartSession(resp);
        return Ok(resp.user);
      }
      return Err(OrElse(resp.message, "Login failed"));
    }

    /** `signup(userData)`: as `login`, with "Signup failed" as the fallback message. */
    method Signup(resp: AuthResponse) returns (r: Result<User>)
      modifies this, storage
      ensures resp.success ==> r == Ok(resp.user) && isAuthenticated && user == Some(resp.user) &&
                               storage.items == StorageAfterLogin(old(storage.items), resp)
      ensures !resp.success ==> r == Err(OrElse(resp.message, "Signup failed")) &&
                                isAuthenticated == old(isAuthenticated) && user == old(user) &&
                                storage.items == old(storage.items)
    {
      if resp.success {
        StartSession(resp);
        return Ok(resp.user);
      }
      return Err(OrElse(resp.message, "Signup failed"));
    }

    /** `logout()`: always clears both fields and both keys (the legacy
        `token` key is left alone). */
    method Logout()
      modifies this, storage
      ensures !isAuthenticated && user == None
      ensures storage.items == old(storage.items) - {Api.AuthTokenKey, Api.UserKey}
    {
      isAuthenticated := false;
      user := None;
      storage.RemoveItem(Api.AuthTokenKey);
      storage.RemoveItem(Api.UserKey);
    }

    /** `checkAuth()`: true exactly when both keys hold non-empty text; then
        the fields are restored from storage. The flag is set before the user
        text is parsed, so text that does not parse throws with the flag
        already set and `user` unchanged. When false, nothing changes. */
    method CheckAuth() returns (r: Result<bool>)
      modifies this
      ensures var found := Api.HasValue(storage.items, Api.AuthTokenKey) && Api.HasValue(storage.items, Api.UserKey);
              (!found ==> r == Ok(false) && isAuthenticated == old(isAuthenticated) && user == old(user)) &&
              (found ==> isAuthenticated) &&
              (found && Parse(storage.items[Api.UserKey]).Some? ==>
                 r == Ok(true) && user == Parse(storage.items[Api.UserKey])) &&
              (found && Parse(storage.items[Api.UserKey]).None? ==> r.Err? && user == old(user))
    {
      var token := storage.GetItem(Api.AuthTokenKey);
      var text := storage.GetItem(Api.UserKey);
      if token.Some? && token.value != "" && text.Some? && text.value != "" {
        isAuthenticated := true;
        var parsed := Parse(text.value);
        if parsed.None? {
          return Err("Unexpected token in JSON");
        }
        user := parsed;
        return Ok(true);
      }
      return Ok(false);
    }

    /** `getCurrentUser()`: the cached field, without looking at storage. */
    function GetCurrentUser(): (u: Option<User>)
      reads this
      ensures u == user
    {
      user
    }
  }

  /** A page reload after a login: a fresh service over the same storage
      finds the session and restores exactly the user that logged in. */
  method ReloadAfterLogin(storage: LocalStorage, email: string, password: string, resp: AuthResponse)
      returns (restored: Option<User>)
    requires resp.success && resp.token != ""
    modifies storage
    ensures restored == Some(resp.user)
  {
    var first := new AuthService(storage);
    var _ := first.Login(email, password, resp);
    var second := new AuthService(storage);
    var r := second.CheckAuth();
    ParseStringify(resp.user);
    assert Api.HasValue(storage.items, Api.UserKey) by {
      assert Stringify(resp.user) != "";
    }
    restored := second.GetCurrentUser();
  }

  /** After a 401 with a JSON body on any request, `checkAuth` reports no session. */
  method CheckAuthAfterUnauthorized<D>(storage: LocalStorage, resp: Api.HttpResponse<D>)
      returns (r: Result<bool>)
    requires resp.status == 401 && resp.body.Ok?
    modifies storage
    ensures r == Ok(false)
  {
    var _, _ := Api.HandleResponse(storage, resp);
    var service := new AuthService(storage);
    r := service.CheckAuth();
  }
}
