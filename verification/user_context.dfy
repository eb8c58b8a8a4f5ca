/** The session store of `UserProvider`: the stored token and role, the
    Authorization default of the HTTP client, the current user and the loading
    flag, with the `fetchUser`, `updateUser` and `logout` transitions. */
module UserContext {
  import opened Wrappers
  import opened JsText
  import opened LocalStorage
  import opened Router
  import opened ApiPaths
  import opened AxiosInstance

  /** A user profile as the client holds it. A field the server leaves out is
      "" (every reader only tests it for truthiness or compares it). */
  datatype User = User(id: string, name: string, email: string, role: string, profileImageUrl: string)

  /** The provider's state together with the browser state it writes. */
  datatype Session = Session(
    storage: Store,
    defaultAuthorization: Option<string>,   // axiosInstance.defaults.headers.common['Authorization']
    user: Option<User>,
    loading: bool)

  /** The state right after mounting: no user, still loading. */
  function InitialSession(storage: Store): (s: Session)
    ensures s.user.None? && s.loading && s.storage == storage
  {
    Session(storage, None, None, true)
  }

  /** The common headers the client adds to every request. */
  function CommonHeaders(s: Session): Headers {
    if s.defaultAuthorization.Some? then map[AuthorizationHeader := s.defaultAuthorization.value] else map[]
  }

  /** How the profile request ends: a response whose `data` may be falsy, or a
      rejection. */
  datatype ProfileResponse = Profile(data: Option<User>) | ProfileFailed(error: ApiError)

  /** The effect of one `fetchUser` run: the new state, the profile request if
      one was sent, and the navigation it triggered. */
  datatype FetchResult = FetchResult(session: Session, request: Option<RequestConfig>, navigation: Option<Nav>)

  /** The profile request as the interceptor sends it. */
  function ProfileRequest(s: Session): RequestConfig {
    PrepareRequest(s.storage, CommonHeaders(s), Get, GetProfile, map[], NoBody)
  }

  /** `fetchUser`: with no stored token, stop loading and go to the login page;
      otherwise ask for the profile (`response` is what the server answers). */
  function FetchUser(s: Session, response: ProfileResponse): (r: FetchResult)
    ensures !r.session.loading
    ensures StoredToken(s.storage) == "" ==>
      r.request.None? && r.session == s.(loading := false) && r.navigation == Some(Nav(LoginPath, false))
    ensures StoredToken(s.storage) != "" ==>
      r.request.Some? && r.request.value.url == GetProfile &&
      AuthorizationHeader in r.request.value.headers &&
      r.request.value.headers[AuthorizationHeader] == BearerValue(StoredToken(s.storage))
    ensures StoredToken(s.storage) != "" && response.Profile? && response.data.Some? ==>
      r.session.user == response.data && r.session.storage == s.storage && r.navigation.None?
    ensures StoredToken(s.storage) != "" && response.Profile? && response.data.None? ==>
      r.session == s.(loading := false) && r.navigation.None?
    ensures StoredToken(s.storage) != "" && response.ProfileFailed? && HasStatus(response.error, 401) ==>
      && r.session.user.None?
      && r.session.storage == RemoveItem(s.storage, TokenKey)
      && TokenKey !in r.session.storage
      && (RoleKey in s.storage ==> RoleKey in r.session.storage && r.session.storage[RoleKey] == s.storage[RoleKey])
      && r.navigation == Some(Nav(LoginPath, false))
    ensures StoredToken(s.storage) != "" && response.ProfileFailed? && !HasStatus(response.error, 401) ==>
      r.session == s.(loading := false) && r.navigation.None?
    ensures r.session.defaultAuthorization == s.defaultAuthorization
  {
    var token := GetItem(s.storage, TokenKey);
    if token == "" then
      FetchResult(s.(loading := false), None, Some(Nav(LoginPath, false)))
    else
      var request := ProfileRequest(s);
      match response
      case Profile(data) =>
        var user := if data.Some? then data else s.user;
        FetchResult(s.(user := user, loading := false), Some(request), None)
      case ProfileFailed(error) =>
        if error.response.Response? && error.response.value.status == 401 then
          FetchResult(s.(storage := RemoveItem(s.storage, TokenKey), user := None, loading := false),
                      Some(request), Some(Nav(LoginPath, false)))
        else
          FetchResult(s.(loading := false), Some(request), None)
  }

  const DefaultApiUrl := "http://localhost:8000"

  /** `process.env.VITE_API_URL || 'http://localhost:8000'`; `env` is "" when unset. */
  function ApiBase(env: string): (base: string)
    ensures env != "" ==> base == env
    ensures env == "" ==> base == DefaultApiUrl && StartsWith(base, "http")
  {
    if env != "" then env else DefaultApiUrl
  }

  /** The image URL `updateUser` stores: an empty URL, or one starting with
      "http", is kept; any other is prefixed with `base`. */
  function AbsoluteImageUrl(url: string, base: string): (r: string)
    ensures url == "" || StartsWith(url, "http") ==> r == url
    ensures url != "" && !StartsWith(url, "http") ==> r == base + url
  {
    if url != "" && !StartsWith(url, "http") then base + url else url
  }

  /** With a base that starts with "http", every non-empty stored URL starts
      with "http", so a second pass changes nothing. */
  lemma {:induction false} AbsoluteImageUrlIdempotent(url: string, base: string)
    requires StartsWith(base, "http")
    ensures url != "" ==> StartsWith(AbsoluteImageUrl(url, base), "http")
    ensures AbsoluteImageUrl(AbsoluteImageUrl(url, base), base) == AbsoluteImageUrl(url, base)
  {
    if url != "" && !StartsWith(url, "http") {
      assert (base + url)[..4] == base[..4];
    }
  }

  /** `updateUser(userData)`: store the user, with a relative image URL made
      absolute, and stop loading. */
  function UpdateUser(s: Session, data: User, env: string): (r: Session)
    ensures r.user.Some? && !r.loading
    ensures r.user.value == data.(profileImageUrl := AbsoluteImageUrl(data.profileImageUrl, ApiBase(env)))
    ensures r.storage == s.storage && r.defaultAuthorization == s.defaultAuthorization
  {
    var url := data.profileImageUrl;
    var fixed := if url != "" && !StartsWith(url, "http") then ApiBase(env) + url else url;
    s.(user := Some(data.(profileImageUrl := fixed)), loading := false)
  }

  /** The effect of `logout`: the new state and the navigation to the login page. */
  datatype LogoutResult = LogoutResult(session: Session, navigation: Nav)

  /** `logout`: forget the token and the role, blank the Authorization default,
      clear the user and go to the login page. */
  function Logout(s: Session): (r: LogoutResult)
    ensures TokenKey !in r.session.storage && RoleKey !in r.session.storage
    ensures forall k | k in s.storage && k != TokenKey && k != RoleKey ::
      k in r.session.storage && r.session.storage[k] == s.storage[k]
    ensures forall k | k in r.session.storage :: k in s.storage
    ensures r.session.defaultAuthorization == Some("")
    ensures r.session.user.None? && r.session.loading == s.loading
    ensures r.navigation == Nav(LoginPath, false)
  {
    var storage := RemoveItem(RemoveItem(s.storage, TokenKey), RoleKey);
    LogoutResult(s.(storage := storage, defaultAuthorization := Some(""), user := None), Nav(LoginPath, false))
  }

  /** Logging out twice leaves the same state as logging out once. */
  lemma LogoutIdempotent(s: Session)
    ensures Logout(Logout(s).session) == Logout(s)
  {
    var once := Logout(s).session;
    assert once.storage - {TokenKey} - {RoleKey} == once.storage;
  }

  /** After `logout`, the next profile fetch sends no request and the next
      request of any kind carries no bearer value. */
  lemma {:induction false} LogoutEndsSession(s: Session, response: ProfileResponse, verb: Method, url: string, data: Body)
    ensures FetchUser(Logout(s).session, response).request.None?
    ensures var out := Logout(s).session;
      var r := PrepareRequest(out.storage, CommonHeaders(out), verb, url, map[], data);
      AuthorizationHeader in r.headers && r.headers[AuthorizationHeader] == ""
  {
    var out := Logout(s).session;
    LoggedOutRequestHasNoBearer(out.storage, CommonHeaders(out), verb, url, map[], data);
  }

  /** Signing in (storing a token and the user) and then logging out ends with
      no token, no role and no user, whatever the state before. */
  lemma {:induction false} LoginThenLogout(s: Session, token: string, role: string, data: User, env: string)
    ensures var signedIn := UpdateUser(s.(storage := SetItem(SetItem(s.storage, TokenKey, token), RoleKey, role)), data, env);
      var out := Logout(signedIn).session;
      out.user.None? && StoredToken(out.storage) == "" && RoleKey !in out.storage && !out.loading
  {
  }
}
