/** `uploadImage`: the checks made on a profile image before it is posted,
    the request that carries it, and the message of the error it rethrows. */
module UploadImage {
  import opened Wrappers
  import opened JsText
  import opened LocalStorage
  import ApiPaths
  import opened AxiosInstance

  /** The file picked by the user: its size in bytes and its MIME type. */
  datatype File = File(size: int, mimeType: string)

  /** 5 MiB, the largest size accepted. */
  const MaxImageBytes := 5 * 1024 * 1024

  const NoFileMessage := "No file provided"
  const TooLargeMessage := "File size exceeds 5MB limit"
  const BadTypeMessage := "Invalid file type. Only JPEG, PNG, and GIF images are allowed"
  const NotLoggedInMessage := "You must be logged in to upload an image"
  const InvalidResponseMessage := "Invalid response from server"
  const UploadFailedMessage := "Failed to upload image"

  /** The subtypes the type check lets through. */
  const ImageSubtypes: seq<string> := ["jpeg", "png", "gif"]

  /** What `/^image\/(jpeg|png|gif)$/` matches: "image/" followed by one of the
      alternatives and then the end of the string. */
  predicate MatchesTypePattern(t: string) {
    && |t| >= 6
    && t[..6] == "image/"
    && t[6..] in ImageSubtypes
  }

  /** The three MIME types named in the rejection message. */
  predicate IsAllowedType(t: string) {
    t == "image/jpeg" || t == "image/png" || t == "image/gif"
  }

  /** The pattern accepts exactly the three MIME types, with nothing before or
      after them. */
  lemma TypePatternIsExact(t: string)
    ensures MatchesTypePattern(t) <==> IsAllowedType(t)
  {
    if MatchesTypePattern(t) {
      assert t == t[..6] + t[6..];
    }
    if IsAllowedType(t) {
      assert t[6..] in ImageSubtypes;
    }
  }

  /** How the upload request ends: a response whose `data.imageUrl` may be
      missing (""), or a rejection. */
  datatype UploadResponse = Uploaded(imageUrl: string) | UploadFailed(error: ApiError)

  /** The request sent, if any, and the image URL or the rethrown message. */
  datatype UploadResult = UploadResult(request: Option<RequestConfig>, outcome: Result<string>)

  /** The message rethrown from the catch block:
      `error.response?.data?.message || error.message || 'Failed to upload image'`. */
  function RethrownMessage(e: ApiError): (m: string)
    ensures m != ""
    ensures ServerMessage(e) != "" ==> m == ServerMessage(e)
    ensures ServerMessage(e) == "" && e.message != "" ==> m == e.message
    ensures ServerMessage(e) == "" && e.message == "" ==> m == UploadFailedMessage
  {
    if ServerMessage(e) != "" then ServerMessage(e)
    else if e.message != "" then e.message
    else UploadFailedMessage
  }

  /** An error thrown by the function itself: it has no response. */
  function LocalError(message: string): ApiError {
    ApiError(NoResponse, message)
  }

  /** `uploadImage(file)`; `common` holds the client's common headers and
      `response` is what the server answers if the request is sent. */
  function UploadImage(file: Option<File>, store: Store, common: Headers, response: UploadResponse): (r: UploadResult)
    ensures file.None? ==> r == UploadResult(None, Err(NoFileMessage))
    ensures file.Some? && file.value.size > MaxImageBytes ==> r == UploadResult(None, Err(TooLargeMessage))
    ensures file.Some? && file.value.size <= MaxImageBytes && !IsAllowedType(file.value.mimeType) ==>
      r == UploadResult(None, Err(BadTypeMessage))
    ensures file.Some? && file.value.size <= MaxImageBytes && IsAllowedType(file.value.mimeType) && StoredToken(store) == "" ==>
      r == UploadResult(None, Err(NotLoggedInMessage))
    ensures r.request.Some? <==>
      file.Some? && file.value.size <= MaxImageBytes && IsAllowedType(file.value.mimeType) && StoredToken(store) != ""
    ensures r.request.Some? ==>
      && r.request.value.httpMethod == Post
      && r.request.value.url == ApiPaths.UploadImage
      && r.request.value.data == FormData
      && ContentTypeHeader !in r.request.value.headers
      && AuthorizationHeader in r.request.value.headers
      && r.request.value.headers[AuthorizationHeader] == BearerValue(StoredToken(store))
    ensures r.request.Some? && response.Uploaded? && response.imageUrl != "" ==> r.outcome == Ok(response.imageUrl)
    ensures r.request.Some? && response == Uploaded("") ==> r.outcome == Err(InvalidResponseMessage)
    ensures r.request.Some? && response.UploadFailed? ==> r.outcome == Err(RethrownMessage(response.error))
    ensures r.outcome.Err? ==> r.outcome.message != ""
  {
    var failure :=
      if file.None? then Some(NoFileMessage)
      else if file.value.size > MaxImageBytes then Some(TooLargeMessage)
      else if !MatchesTypePattern(file.value.mimeType) then Some(BadTypeMessage)
      else if GetItem(store, TokenKey) == "" then Some(NotLoggedInMessage)
      else None;
    TypePatternIsExact(if file.Some? then file.value.mimeType else "");
    if failure.Some? then
      UploadResult(None, Err(RethrownMessage(LocalError(failure.value))))
    else
      var token := GetItem(store, TokenKey);
      var perRequest := map[ContentTypeHeader := "multipart/form-data", AuthorizationHeader := BearerValue(token)];
      var request := PrepareRequest(store, common, Post, ApiPaths.UploadImage, perRequest, FormData);
      var outcome :=
        match response
        case Uploaded(url) =>
          if url == "" then Err(RethrownMessage(LocalError(InvalidResponseMessage))) else Ok(url)
        case UploadFailed(e) => Err(RethrownMessage(e));
      UploadResult(Some(request), outcome)
  }

  /** The size limit is inclusive: a file of exactly 5 MiB gets past it, one
      byte more does not. */
  lemma SizeLimitIsInclusive(store: Store, common: Headers, response: UploadResponse)
    ensures UploadImage(Some(File(MaxImageBytes + 1, "image/png")), store, common, response).outcome == Err(TooLargeMessage)
    ensures StoredToken(store) != "" ==>
      UploadImage(Some(File(MaxImageBytes, "image/png")), store, common, response).request.Some?
    ensures StoredToken(store) == "" ==>
      UploadImage(Some(File(MaxImageBytes, "image/png")), store, common, response).outcome == Err(NotLoggedInMessage)
  {
  }
}
