/** `handleLogin` of the login page: the email and password checks, the
    request, what a successful answer stores, the redirect by role, and the
    error text. The checks and the answer's shape are shared with sign-up. */
module Login {
  import opened Wrappers
  import opened JsText
  import opened LocalStorage
  import opened Router
  import opened AxiosInstance
  import opened Helper
  import opened UserContext
  import opened PrivateRoute
  import opened App

  const InvalidEmailMessage := "Please enter a valid email address."
  const ShortPasswordMessage := "Password must be at least 6 characters long."
  const LoginNetworkMessage := "Unable to connect to server. Please try again."
  const LoginGenericMessage := "An error occurred during login. Please try again."

  /** The shortest password accepted, in UTF-16 code units. */
  const MinPasswordLength := 6

  /** `!password || password.length < 6`. */
  predicate PasswordTooShort(password: string) {
    Utf16Length(password) < MinPasswordLength
  }

  /** The `data` of a successful sign-in or sign-up answer: the token and the
      user profile, whose `role` is the answer's role. */
  datatype AuthData = AuthData(token: string, profile: User)

  /** How the request ends: an answer whose `data` may be missing, or a rejection. */
  datatype AuthResponse = Answered(data: Option<AuthData>) | Failed(error: ApiError)

  /** The body of the login request. */
  datatype LoginPayload = LoginPayload(email: string, password: string)

  /** The effect of one `handleLogin`: the new state, the request body if one
      was sent, the navigation, and the error text ("" when none). */
  datatype LoginResult = LoginResult(session: Session, request: Option<LoginPayload>, navigation: Option<Nav>, error: string)

  /** Where a signed-in role is sent after logging in; other roles stay. */
  function LoginTarget(role: string): (target: Option<Nav>)
    ensures role == "admin" ==> target == Some(Nav(AdminDashboardPath, true))
    ensures role == "user" || role == "member" ==> target == Some(Nav(UserDashboardPath, true))
    ensures role != "admin" && role != "user" && role != "member" ==> target.None?
  {
    if role == "admin" then Some(Nav(AdminDashboardPath, true))
    else if role == "user" || role == "member" then Some(Nav(UserDashboardPath, true))
    else None
  }

  /** The catch block's text: the server's message, else a connection text
      for a network failure, else the generic text. */
  function LoginErrorMessage(e: ApiError): (m: string)
    ensures m != ""
    ensures ServerMessage(e) != "" ==> m == ServerMessage(e)
    ensures ServerMessage(e) == "" && e.message == NetworkErrorMessage ==> m == LoginNetworkMessage
    ensures ServerMessage(e) == "" && e.message != NetworkErrorMessage ==> m == LoginGenericMessage
  {
    if ServerMessage(e) != "" then ServerMessage(e)
    else if e.message == NetworkErrorMessage then LoginNetworkMessage
    else LoginGenericMessage
  }

  /** `handleLogin`; `response` is what the server answers if the request is
      sent and `env` is the configured API URL ("" when unset). */
  function HandleLogin(s: Session, email: string, password: string, response: AuthResponse, env: string): (r: LoginResult)
    ensures !ValidateEmail(email) ==> r == LoginResult(s, None, None, InvalidEmailMessage)
    ensures ValidateEmail(email) && PasswordTooShort(password) ==> r == LoginResult(s, None, None, ShortPasswordMessage)
    ensures r.request.Some? <==> ValidateEmail(email) && !PasswordTooShort(password)
    ensures r.request.Some? ==> r.request.value == LoginPayload(email, password)
    ensures (&& r.request.Some? && response.Answered? && response.data.Some?
             && response.data.value.token != "" && response.data.value.profile.role != "") ==>
      var data := response.data.value;
      && r.session.storage == SetItem(SetItem(s.storage, TokenKey, data.token), RoleKey, data.profile.role)
      && r.session == UpdateUser(s.(storage := r.session.storage), data.profile, env)
      && r.navigation == LoginTarget(data.profile.role)
      && r.error == ""
    ensures (&& r.request.Some? && response.Answered? && response.data.Some?
             && (response.data.value.token == "" || response.data.value.profile.role == "")) ==>
      r.session == s && r.navigation.None? && r.error == ""
    ensures r.request.Some? && response.Answered? && response.data.None? ==>
      r.session == s && r.navigation.None? && r.error == LoginGenericMessage
    ensures r.request.Some? && response.Failed? ==>
      r.session == s && r.navigation.None? && r.error == LoginErrorMessage(response.error)
    ensures r.navigation.Some? ==> r.navigation.value.replace && StoredToken(r.session.storage) != ""
  {
    if !ValidateEmail(email) then LoginResult(s, None, None, InvalidEmailMessage)
    else if PasswordTooShort(password) then LoginResult(s, None, None, ShortPasswordMessage)
    else
      NoWhitespaceIsTrimmed(email);
      var payload := LoginPayload(Trim(email), password);
      match response
      case Failed(e) => LoginResult(s, Some(payload), None, LoginErrorMessage(e))
      case Answered(None) =>
        // destructuring a missing `data` throws a TypeError, which is neither
        // a server answer nor a network failure
        LoginResult(s, Some(payload), None, LoginErrorMessage(ApiError(NoResponse, "")))
      case Answered(Some(data)) =>
        if data.token != "" && data.profile.role != "" then
          var storage := SetItem(SetItem(s.storage, TokenKey, data.token), RoleKey, data.profile.role);
          var signedIn := UpdateUser(s.(storage := storage), data.profile, env);
          LoginResult(signedIn, Some(payload), LoginTarget(data.profile.role), "")
        else LoginResult(s, Some(payload), None, "")
  }

  /** After a login that redirects, the route guard of the page it was sent
      to admits the stored user: admins on admin pages, users and members on
      user pages, so the redirect never bounces. */
  lemma {:induction false} LoginRedirectIsAdmitted(s: Session, email: string, password: string, data: AuthData, env: string)
    requires ValidateEmail(email) && !PasswordTooShort(password)
    requires data.token != ""
    ensures var r := HandleLogin(s, email, password, Answered(Some(data)), env);
      && (r.navigation == Some(Nav(AdminDashboardPath, true)) ==>
            Guard(AdminRoles, r.session.user, r.session.loading) == RenderOutlet)
      && (r.navigation == Some(Nav(UserDashboardPath, true)) ==>
            Guard(UserRoles, r.session.user, r.session.loading) == RenderOutlet)
  {
    var r := HandleLogin(s, email, password, Answered(Some(data)), env);
    if r.navigation.Some? {
      assert r.session.user.value.role == data.profile.role;
      if data.profile.role == "member" {
        MemberPassesUserGuard(UserRoles, r.session.user.value);
      }
    }
  }
}
