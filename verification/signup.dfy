/** `handleSignUp` of the sign-up page: the checks in order, the optional
    profile picture, the normalised request body, what a successful answer
    stores, the redirect, and the status-to-message mapping of its errors. */
module SignUp {
  import opened Wrappers
  import opened JsText
  import opened LocalStorage
  import opened Router
  import opened AxiosInstance
  import opened Helper
  import opened UserContext
  import opened Login
  import UploadImage

  const BlankNameMessage := "Please enter full name."
  const BadInputMessage := "Invalid input. Please check your details."
  const AlreadyRegisteredMessage := "This email is already registered. Please try logging in."
  const ServerErrorMessage := "Server error. Please try again later."
  const SignUpNetworkMessage := "Unable to connect to server. Please check your connection."
  const SignUpGenericMessage := "Registration failed. Please try again."

  /** The body of the register request. */
  datatype RegisterPayload = RegisterPayload(
    name: string,
    email: string,
    password: string,
    profileImageUrl: string,
    adminInviteToken: string)

  /** The effect of one `handleSignUp`: the new state, the request body if one
      was sent, the redirect (made after a delay), and the error toast ("" when
      none). */
  datatype SignUpResult = SignUpResult(session: Session, request: Option<RegisterPayload>, navigation: Option<Nav>, error: string)

  /** The error toast of the catch block, by status first. */
  function SignUpErrorMessage(e: ApiError): (m: string)
    ensures m != ""
    ensures HasStatus(e, 400) ==> m == (if ServerMessage(e) != "" then ServerMessage(e) else BadInputMessage)
    ensures HasStatus(e, 409) ==> m == AlreadyRegisteredMessage
    ensures HasStatus(e, 500) ==> m == ServerErrorMessage
    ensures !HasStatus(e, 400) && !HasStatus(e, 409) && !HasStatus(e, 500) ==>
      m == (if e.message == NetworkErrorMessage then SignUpNetworkMessage else SignUpGenericMessage)
  {
    if HasStatus(e, 400) then (if ServerMessage(e) != "" then ServerMessage(e) else BadInputMessage)
    else if HasStatus(e, 409) then AlreadyRegisteredMessage
    else if HasStatus(e, 500) then ServerErrorMessage
    else if e.message == NetworkErrorMessage then SignUpNetworkMessage
    else SignUpGenericMessage
  }

  /** The image URL sent: the uploaded URL when a picture was chosen and its
      upload gave one, and "" otherwise (a failed upload does not stop the
      registration). `upload` is the outcome of `uploadImage`, `None` when no
      picture was chosen. */
  function ProfileImageUrl(upload: Option<Result<string>>): (url: string)
    ensures upload.None? || upload.value.Err? ==> url == ""
    ensures upload.Some? && upload.value.Ok? ==> url == upload.value.value
  {
    match upload
    case Some(Ok(u)) => u
    case _ => ""
  }

  /** The checks of `handleSignUp`, in order: the error toast of the first
      that fails, or `None` when all pass. */
  function SignUpCheck(fullName: string, email: string, password: string): (err: Option<string>)
    ensures AllWhitespace(fullName) ==> err == Some(BlankNameMessage)
    ensures !AllWhitespace(fullName) && !ValidateEmail(email) ==> err == Some(InvalidEmailMessage)
    ensures !AllWhitespace(fullName) && ValidateEmail(email) && PasswordTooShort(password) ==> err == Some(ShortPasswordMessage)
    ensures err.None? <==> !AllWhitespace(fullName) && ValidateEmail(email) && !PasswordTooShort(password)
  {
    TrimEmptyIffBlank(fullName);
    if Trim(fullName) == "" then Some(BlankNameMessage)
    else if !ValidateEmail(email) then Some(InvalidEmailMessage)
    else if PasswordTooShort(password) then Some(ShortPasswordMessage)
    else None
  }

  /** The outcome of the picture upload: `None` when no picture was picked,
      otherwise what `uploadImage` resolves or rejects with, given the state's
      stored token and `answer`, the upload server's reply. */
  function PictureUpload(s: Session, picture: Option<UploadImage.File>, answer: UploadImage.UploadResponse): (upload: Option<Result<string>>)
    ensures picture.None? <==> upload.None?
    ensures picture.Some? && StoredToken(s.storage) == "" ==> upload.Some? && upload.value.Err?
    ensures (&& picture.Some? && StoredToken(s.storage) == ""
             && picture.value.size <= UploadImage.MaxImageBytes && UploadImage.IsAllowedType(picture.value.mimeType)) ==>
      upload == Some(Err(UploadImage.NotLoggedInMessage))
    ensures upload.Some? && upload.value.Ok? ==>
      && StoredToken(s.storage) != "" && answer.Uploaded?
      && upload.value.value == answer.imageUrl && answer.imageUrl != ""
  {
    if picture.None? then None
    else Some(UploadImage.UploadImage(picture, s.storage, CommonHeaders(s), answer).outcome)
  }

  /** The register body, built once the checks pass. */
  function SignUpPayload(fullName: string, email: string, password: string, invite: string,
                         upload: Option<Result<string>>): (p: RegisterPayload)
    ensures !AllWhitespace(fullName) ==> p.name == Trim(fullName) && p.name != ""
    ensures NoWhitespace(email) ==> p.email == ToLower(email)
    ensures p.password == password
    ensures p.profileImageUrl == ProfileImageUrl(upload)
    ensures p.adminInviteToken == Trim(invite)
  {
    TrimEmptyIffBlank(fullName);
    assert NoWhitespace(email) ==> Trim(email) == email by {
      if NoWhitespace(email) { NoWhitespaceIsTrimmed(email); }
    }
    RegisterPayload(Trim(fullName), ToLower(Trim(email)), password, ProfileImageUrl(upload), Trim(invite))
  }

  /** The state, redirect and error toast once the register request ends. */
  function FinishSignUp(s: Session, response: AuthResponse, env: string): (r: SignUpResult)
    ensures r.request.None?
    ensures (&& response.Answered? && response.data.Some?
             && response.data.value.token != "" && response.data.value.profile.role != "") ==>
      var data := response.data.value;
      && r.session == UpdateUser(s.(storage := SetItem(s.storage, TokenKey, data.token)), data.profile, env)
      && r.navigation == Some(Nav(if data.profile.role == "admin" then AdminDashboardPath else UserDashboardPath, true))
      && r.error == ""
    ensures (&& response.Answered?
             && (response.data.None? || response.data.value.token == "" || response.data.value.profile.role == "")) ==>
      r.session == s && r.navigation.None? && r.error == SignUpGenericMessage
    ensures response.Failed? ==> r.session == s && r.navigation.None? && r.error == SignUpErrorMessage(response.error)
    ensures forall k | k in r.session.storage && k != TokenKey :: k in s.storage && r.session.storage[k] == s.storage[k]
    ensures forall k | k in s.storage && k != TokenKey :: k in r.session.storage
  {
    match response
    case Failed(e) => SignUpResult(s, None, None, SignUpErrorMessage(e))
    case Answered(data) =>
      if data.Some? && data.value.token != "" && data.value.profile.role != "" then
        var signedIn := UpdateUser(s.(storage := SetItem(s.storage, TokenKey, data.value.token)), data.value.profile, env);
        var target := if data.value.profile.role == "admin" then AdminDashboardPath else UserDashboardPath;
        SignUpResult(signedIn, None, Some(Nav(target, true)), "")
      else
        // "Invalid response from server" is thrown locally: no status, not a network failure
        SignUpResult(s, None, None, SignUpErrorMessage(ApiError(NoResponse, "Invalid response from server")))
  }

  /** `handleSignUp` once the picture, if any, has been dealt with: the checks,
      then the register request, then its answer. `upload` is the outcome of
      the picture upload (`PictureUpload`). */
  function SignUpAfterUpload(s: Session, fullName: string, email: string, password: string, invite: string,
                             upload: Option<Result<string>>, response: AuthResponse, env: string): (r: SignUpResult)
    ensures r.request.None? <==> SignUpCheck(fullName, email, password).Some?
    ensures r.request.None? ==> r == SignUpResult(s, None, None, SignUpCheck(fullName, email, password).value)
    ensures r.request.Some? ==>
      r == FinishSignUp(s, response, env).(request := Some(SignUpPayload(fullName, email, password, invite, upload)))
  {
    match SignUpCheck(fullName, email, password)
    case Some(err) => SignUpResult(s, None, None, err)
    case None => FinishSignUp(s, response, env).(request := Some(SignUpPayload(fullName, email, password, invite, upload)))
  }

  /** `handleSignUp`: the checks, then the upload of the picked picture (if
      any), then the register request, then its answer. `answer` is what the
      upload server replies and `response` what the register request ends
      with. The upload decides the image URL sent and nothing else. */
  function HandleSignUp(s: Session, fullName: string, email: string, password: string, invite: string,
                        picture: Option<UploadImage.File>, answer: UploadImage.UploadResponse,
                        response: AuthResponse, env: string): (r: SignUpResult)
    ensures r.request.None? <==> SignUpCheck(fullName, email, password).Some?
    ensures r.request.Some? && r.request.value.profileImageUrl != "" ==>
      && picture.Some? && StoredToken(s.storage) != ""
      && answer == UploadImage.Uploaded(r.request.value.profileImageUrl)
    ensures r.(request := None) == SignUpAfterUpload(s, fullName, email, password, invite, None, response, env).(request := None)
  {
    SignUpAfterUpload(s, fullName, email, password, invite, PictureUpload(s, picture, answer), response, env)
  }

  /** A visitor with no stored token (the usual case on the sign-up page)
      registers without a picture whatever they pick: `uploadImage` refuses to
      post without a token, and the failure only costs the picture. */
  lemma SignedOutSignUpHasNoPicture(s: Session, fullName: string, email: string, password: string, invite: string,
                                    picture: Option<UploadImage.File>, answer: UploadImage.UploadResponse,
                                    response: AuthResponse, env: string)
    requires StoredToken(s.storage) == ""
    requires !AllWhitespace(fullName) && ValidateEmail(email) && !PasswordTooShort(password)
    ensures var r := HandleSignUp(s, fullName, email, password, invite, picture, answer, response, env);
      r.request.Some? && r.request.value.profileImageUrl == ""
  {
  }

  /** With a stored token, a picked picture the checks accept and an upload
      answered with a URL, that URL is what the register body carries. */
  lemma SignedInSignUpSendsPicture(s: Session, fullName: string, email: string, password: string, invite: string,
                                   picture: UploadImage.File, url: string, response: AuthResponse, env: string)
    requires StoredToken(s.storage) != "" && url != ""
    requires picture.size <= UploadImage.MaxImageBytes && UploadImage.IsAllowedType(picture.mimeType)
    requires !AllWhitespace(fullName) && ValidateEmail(email) && !PasswordTooShort(password)
    ensures var r := HandleSignUp(s, fullName, email, password, invite, Some(picture), UploadImage.Uploaded(url), response, env);
      r.request.Some? && r.request.value.profileImageUrl == url
  {
    var upload := PictureUpload(s, Some(picture), UploadImage.Uploaded(url));
    assert upload == Some(Ok(url));
  }

  /** The body sent carries the name and invite token trimmed (the name not
      blank), the password verbatim, and the email lower-cased; that email is
      still a valid address and has no upper-case ASCII letter. */
  lemma {:induction false} SentPayloadIsNormalised(s: Session, fullName: string, email: string, password: string, invite: string,
                                                   upload: Option<Result<string>>, response: AuthResponse, env: string)
    requires !AllWhitespace(fullName) && ValidateEmail(email) && !PasswordTooShort(password)
    ensures SignUpAfterUpload(s, fullName, email, password, invite, upload, response, env).request.Some?
    ensures var sent := SignUpAfterUpload(s, fullName, email, password, invite, upload, response, env).request.value;
      && sent.name == Trim(fullName) && sent.name != ""
      && sent.adminInviteToken == Trim(invite)
      && sent.password == password
      && sent.email == ToLower(email)
      && ValidateEmail(sent.email)
      && (forall i | 0 <= i < |sent.email| :: !('A' <= sent.email[i] <= 'Z'))
  {
    assert SignUpCheck(fullName, email, password).None?;
    assert ValidateEmail(email) && !AllWhitespace(fullName);
    var sent := SignUpPayload(fullName, email, password, invite, upload);
    assert sent.email == ToLower(email);
    LowerPreservesEmailShape(email);
  }

  /** Lower-casing maps `@` and `.` to themselves and no other character to
      them, so a valid address stays valid. */
  lemma LowerPreservesEmailShape(email: string)
    requires ValidateEmail(email)
    ensures ValidateEmail(ToLower(email))
  {
    AcceptedMatchesPattern(email);
    var i, j :| 0 < i && i + 1 < j && j + 1 < |email| && email[i] == '@' && email[j] == '.'
      && AllEmailChars(email[..i]) && AllEmailChars(email[i + 1..j]) && AllEmailChars(email[j + 1..]);
    var lower := ToLower(email);
    LowerParts(email, i, j);
    assert lower[i] == LowerChar(email[i]) && lower[j] == LowerChar(email[j]);
    PatternAt(lower, i, j);
    PatternIsAccepted(lower);
  }

  /** The three parts of a split address stay runs of email characters when
      lower-cased. */
  lemma LowerParts(email: string, i: nat, j: nat)
    requires i < j < |email|
    requires AllEmailChars(email[..i]) && AllEmailChars(email[i + 1..j]) && AllEmailChars(email[j + 1..])
    ensures var lower := ToLower(email);
      AllEmailChars(lower[..i]) && AllEmailChars(lower[i + 1..j]) && AllEmailChars(lower[j + 1..])
  {
    var lower := ToLower(email);
    LowerKeepsEmailChars(email);
    assert email[..i] == email[0..i] && lower[..i] == lower[0..i];
    assert email[j + 1..] == email[j + 1..|email|] && lower[j + 1..] == lower[j + 1..|email|];
    SliceKeepsEmailChars(email, lower, 0, i);
    SliceKeepsEmailChars(email, lower, i + 1, j);
    SliceKeepsEmailChars(email, lower, j + 1, |email|);
  }

  /** An email character stays one when lower-cased. */
  lemma LowerKeepsEmailChars(email: string)
    ensures forall m | 0 <= m < |email| && IsEmailChar(email[m]) :: IsEmailChar(ToLower(email)[m])
  {
    forall m | 0 <= m < |email| && IsEmailChar(email[m])
      ensures IsEmailChar(ToLower(email)[m])
    {
      assert ToLower(email)[m] == LowerChar(email[m]);
    }
  }

  /** A slice of `lower` is made of email characters where the same slice of
      `email` is, when every email character of `email` stays one in `lower`. */
  lemma SliceKeepsEmailChars(email: string, lower: string, from: nat, to: nat)
    requires from <= to <= |email| == |lower|
    requires forall m | 0 <= m < |email| && IsEmailChar(email[m]) :: IsEmailChar(lower[m])
    requires AllEmailChars(email[from..to])
    ensures AllEmailChars(lower[from..to])
  {
    forall m | 0 <= m < to - from
      ensures IsEmailChar(lower[from..to][m])
    {
      assert email[from..to][m] == email[from + m];
      assert lower[from..to][m] == lower[from + m];
    }
  }

  /** Sign-up stores the token but never the role, so a role stored by an
      earlier session survives it unchanged. */
  lemma SignUpKeepsStoredRole(s: Session, fullName: string, email: string, password: string, invite: string,
                              picture: Option<UploadImage.File>, answer: UploadImage.UploadResponse,
                              response: AuthResponse, env: string)
    ensures var r := HandleSignUp(s, fullName, email, password, invite, picture, answer, response, env);
      && (RoleKey in r.session.storage <==> RoleKey in s.storage)
      && (RoleKey in s.storage ==> r.session.storage[RoleKey] == s.storage[RoleKey])
  {
    if SignUpCheck(fullName, email, password).None? {
      var finished := FinishSignUp(s, response, env);
      assert RoleKey != TokenKey;
      assert SignUpAfterUpload(s, fullName, email, password, invite, None, response, env).session == finished.session;
    }
  }
}
