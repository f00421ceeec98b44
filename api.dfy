/** The request helpers every service call goes through: the base URL, the
    default headers with the bearer token, the merge with the caller's
    options, and the handling of the HTTP response (a 401 ends the session). */
module Api {
  import opened Common
  import opened Browser

  const AuthTokenKey: string := "authToken"
  const TokenKey: string := "token"
  const UserKey: string := "user"

  const ProductionUrl: string := "https://getsetride-backend.onrender.com/api"
  const DevelopmentUrl: string := "/api"

  /** The build environment: `VITE_API_URL` ("" when unset) and `DEV`. */
  datatype Env = Env(viteApiUrl: string, isDevelopment: bool)

  /** `API_URL`: the configured URL when set, else the dev proxy path in
      development and the production URL otherwise. */
  function ApiUrl(env: Env): (url: string)
    ensures Truthy(env.viteApiUrl) ==> url == env.viteApiUrl
    ensures !Truthy(env.viteApiUrl) && env.isDevelopment ==> url == DevelopmentUrl
    ensures !Truthy(env.viteApiUrl) && !env.isDevelopment ==> url == ProductionUrl
  {
    OrElse(env.viteApiUrl, if env.isDevelopment then DevelopmentUrl else ProductionUrl)
  }

  /** True when `key` holds a non-empty value (what `getItem(key)` makes truthy). */
  predicate HasValue(items: map<string, string>, key: string) {
    key in items && items[key] != ""
  }

  /** `getItem('authToken') || getItem('token')`, keeping only a truthy result. */
  function StoredToken(items: map<string, string>): (t: Option<string>)
    ensures t.Some? <==> HasValue(items, AuthTokenKey) || HasValue(items, TokenKey)
    ensures HasValue(items, AuthTokenKey) ==> t == Some(items[AuthTokenKey])
    ensures !HasValue(items, AuthTokenKey) && HasValue(items, TokenKey) ==> t == Some(items[TokenKey])
  {
    if HasValue(items, AuthTokenKey) then Some(items[AuthTokenKey])
    else if HasValue(items, TokenKey) then Some(items[TokenKey])
    else None
  }

  /** `getAuthHeaders()`: always a JSON content type, and a bearer
      `Authorization` header exactly when a token is stored. */
  function AuthHeaders(items: map<string, string>): (h: map<string, string>)
    ensures "Content-Type" in h && h["Content-Type"] == "application/json"
    ensures "Authorization" in h <==> StoredToken(items).Some?
    ensures "Authorization" in h ==> h["Authorization"] == "Bearer " + StoredToken(items).value
    ensures h.Keys <= {"Content-Type", "Authorization"}
  {
    var base := map["Content-Type" := "application/json"];
    match StoredToken(items)
    case Some(t) => base["Authorization" := "Bearer " + t]
    case None => base
  }

  /** What a caller passes to `fetch` (`options`), and the request actually sent. */
  datatype Options = Options(httpMethod: Option<string>, body: Option<string>, headers: map<string, string>)
  datatype Request = Request(url: string, config: Options)

  /** `apiRequest`'s request: the base URL followed by the endpoint, the
      caller's options, and the default headers under the caller's own. */
  function BuildRequest(env: Env, items: map<string, string>, endpoint: string, options: Options): (r: Request)
    ensures r.url == ApiUrl(env) + endpoint
    ensures r.config.httpMethod == options.httpMethod && r.config.body == options.body
    ensures r.config.headers.Keys == AuthHeaders(items).Keys + options.headers.Keys
    ensures forall k :: k in options.headers ==> r.config.headers[k] == options.headers[k]
    ensures forall k :: k in AuthHeaders(items) && k !in options.headers ==>
              r.config.headers[k] == AuthHeaders(items)[k]
  {
    Request(ApiUrl(env) + endpoint, options.(headers := AuthHeaders(items) + options.headers))
  }

  /** The parsed JSON body of a response; `message` is its `message` field
      ("" when it has none). */
  datatype Body<D> = Body(data: D, message: string)

  /** A response of `fetch`. `body` is the outcome of `response.json()`:
      the parsed body, or the message of the error it throws when the body
      is not JSON. */
  datatype HttpResponse<D> = HttpResponse(status: nat, body: Result<Body<D>>) {
    /** `response.ok`: a status in the 2xx range. */
    predicate Ok() {
      200 <= status <= 299
    }
  }

  /** The text of the error thrown for a failed response whose body parsed. */
  function ErrorMessage<D>(status: nat, body: Body<D>): (m: string)
    ensures Truthy(body.message) ==> m == body.message
    ensures !Truthy(body.message) ==> m == "HTTP error! status: " + NatToString(status)
    ensures m != ""
  {
    OrElse(body.message, "HTTP error! status: " + NatToString(status))
  }

  const SessionKeys: set<string> := {AuthTokenKey, TokenKey, UserKey}

  /** Storage after `handleResponse`: the body is parsed first, so only a
      401 whose body parses removes the three session keys; every other
      response, and a body that is not JSON, leaves storage as it was. */
  function StorageAfter<D>(items: map<string, string>, resp: HttpResponse<D>): (after: map<string, string>)
    ensures resp.status == 401 && resp.body.Ok? ==> after.Keys == items.Keys - SessionKeys
    ensures resp.status != 401 || resp.body.Err? ==> after == items
    ensures forall k :: k in after ==> k in items && after[k] == items[k]
    ensures forall k :: k in items && k !in SessionKeys ==> k in after
  {
    if resp.body.Ok? && !resp.Ok() && resp.status == 401 then items - SessionKeys else items
  }

  /** `handleResponse`: a body that is not JSON throws the parse error
      before the status is looked at; otherwise an ok response returns its
      data unchanged, and any other throws the body's message (else the
      status), a 401 first clearing the session keys and sending the
      browser to the login page. */
  method HandleResponse<D>(storage: LocalStorage, resp: HttpResponse<D>)
      returns (r: Result<D>, redirectToLogin: bool)
    modifies storage
    ensures storage.items == StorageAfter(old(storage.items), resp)
    ensures resp.body.Err? ==> r == Err(resp.body.message)
    ensures resp.body.Ok? && resp.Ok() ==> r == Ok(resp.body.value.data)
    ensures resp.body.Ok? && !resp.Ok() ==> r == Err(ErrorMessage(resp.status, resp.body.value))
    ensures redirectToLogin <==> resp.status == 401 && resp.body.Ok?
  {
    redirectToLogin := false;
    if resp.body.Err? {
      return Err(resp.body.message), false;
    }
    var body := resp.body.value;
    if !resp.Ok() {
      if resp.status == 401 {
        storage.RemoveItem(AuthTokenKey);
        storage.RemoveItem(TokenKey);
        storage.RemoveItem(UserKey);
        redirectToLogin := true;
      }
      return Err(ErrorMessage(resp.status, body)), redirectToLogin;
    }
    return Ok(body.data), redirectToLogin;
  }

  /** `apiRequest`: builds the request from the storage as it is before the
      call, hands it to `fetch` (whose outcome is the parameter `fetched`: a
      response, or the message it threw), and handles the response. A body
      that is not JSON is rethrown like a failed fetch, with storage kept. */
  method ApiRequest<D>(storage: LocalStorage, env: Env, endpoint: string, options: Options,
                       fetched: Result<HttpResponse<D>>)
      returns (request: Request, r: Result<D>, redirectToLogin: bool)
    modifies storage
    ensures request == BuildRequest(env, old(storage.items), endpoint, options)
    ensures fetched.Err? ==> r == Err(fetched.message) && !redirectToLogin && storage.items == old(storage.items)
    ensures fetched.Ok? ==> storage.items == StorageAfter(old(storage.items), fetched.value)
    ensures fetched.Ok? && fetched.value.body.Err? ==> r == Err(fetched.value.body.message) && !redirectToLogin
    ensures fetched.Ok? && fetched.value.body.Ok? && fetched.value.Ok() ==> r == Ok(fetched.value.body.value.data)
    ensures fetched.Ok? && fetched.value.body.Ok? && !fetched.value.Ok() ==>
              r == Err(ErrorMessage(fetched.value.status, fetched.value.body.value))
  {
    request := BuildRequest(env, storage.items, endpoint, options);
    if fetched.Err? {
      return request, Err(fetched.message), false;
    }
    r, redirectToLogin := HandleResponse(storage, fetched.value);
  }

  /** After a 401 no token is left for the next request, so it goes out
      without an `Authorization` header. */
  lemma UnauthorizedDropsBearer<D>(items: map<string, string>, resp: HttpResponse<D>)
    requires resp.status == 401 && resp.body.Ok?
    ensures StoredToken(StorageAfter(items, resp)) == None
    ensures "Authorization" !in AuthHeaders(StorageAfter(items, resp))
  {
    var after := StorageAfter(items, resp);
    assert AuthTokenKey !in after && TokenKey !in after;
  }
}
