/** The shared HTTP client: its default headers, the request interceptor that
    attaches the stored bearer token, and the shape of the errors it rejects with. */
module AxiosInstance {
  import opened LocalStorage

  type Headers = map<string, string>

  const AuthorizationHeader := "Authorization"
  const ContentTypeHeader := "Content-Type"

  /** The headers the instance is created with. */
  const InstanceHeaders: Headers := map[
    "Content-Type" := "application/json",
    "Accept" := "application/json",
    "Access-Control-Allow-Origin" := "*",
    "Access-Control-Allow-Methods" := "GET,PUT,POST,DELETE,PATCH,OPTIONS"
  ]

  datatype Method = Get | Post | Put | Patch | Delete

  /** What a request carries as `config.data`; only `FormData` matters to the interceptor. */
  datatype Body = NoBody | Json | FormData

  datatype RequestConfig = RequestConfig(httpMethod: Method, url: string, headers: Headers, data: Body)

  /** The value of an `Authorization` header carrying `token` under the Bearer
      scheme of section 2.1 of RFC 6750. */
  function BearerValue(token: string): string {
    "Bearer " + token
  }

  /** The request interceptor: with a stored token it sets the Authorization
      header to the bearer value, and for a FormData body it deletes the
      Content-Type header so the browser can supply its own. */
  function InterceptRequest(store: Store, config: RequestConfig): (r: RequestConfig)
    ensures r.httpMethod == config.httpMethod && r.url == config.url && r.data == config.data
    ensures StoredToken(store) != "" ==>
      AuthorizationHeader in r.headers && r.headers[AuthorizationHeader] == BearerValue(StoredToken(store))
    ensures StoredToken(store) == "" ==>
      (AuthorizationHeader in r.headers <==> AuthorizationHeader in config.headers) &&
      (AuthorizationHeader in config.headers ==> r.headers[AuthorizationHeader] == config.headers[AuthorizationHeader])
    ensures config.data == FormData ==> ContentTypeHeader !in r.headers
    ensures config.data != FormData ==>
      (ContentTypeHeader in r.headers <==> ContentTypeHeader in config.headers) &&
      (ContentTypeHeader in config.headers ==> r.headers[ContentTypeHeader] == config.headers[ContentTypeHeader])
    ensures forall k | k in config.headers && k != AuthorizationHeader && k != ContentTypeHeader ::
      k in r.headers && r.headers[k] == config.headers[k]
    ensures forall k | k in r.headers :: k in config.headers || k == AuthorizationHeader
  {
    var token := GetItem(store, TokenKey);
    var withAuth := if token != "" then config.headers[AuthorizationHeader := BearerValue(token)] else config.headers;
    var headers := if config.data == FormData then withAuth - {ContentTypeHeader} else withAuth;
    config.(headers := headers)
  }

  /** The headers a request starts from before the interceptor runs: the common
      defaults, then the instance's own headers, then those given with the call
      (later ones win). */
  function MergeHeaders(common: Headers, perRequest: Headers): (h: Headers)
    ensures forall k | k in perRequest :: k in h && h[k] == perRequest[k]
    ensures forall k | k in h :: k in common || k in InstanceHeaders || k in perRequest
    ensures forall k | k in common && k !in InstanceHeaders && k !in perRequest :: k in h && h[k] == common[k]
    ensures forall k | k in InstanceHeaders && k !in perRequest :: k in h && h[k] == InstanceHeaders[k]
  {
    common + InstanceHeaders + perRequest
  }

  /** A request as sent: defaults merged in, then intercepted. */
  function PrepareRequest(store: Store, common: Headers, verb: Method, url: string, perRequest: Headers, data: Body): RequestConfig {
    InterceptRequest(store, RequestConfig(verb, url, MergeHeaders(common, perRequest), data))
  }

  /** A JSON request made without headers of its own is sent as JSON and asks
      for JSON, whatever the common defaults hold, and carries the bearer value
      of the stored token when there is one. */
  lemma {:induction false} JsonRequestHeaders(store: Store, common: Headers, verb: Method, url: string)
    ensures var r := PrepareRequest(store, common, verb, url, map[], Json);
      && ContentTypeHeader in r.headers && r.headers[ContentTypeHeader] == "application/json"
      && "Accept" in r.headers && r.headers["Accept"] == "application/json"
      && (StoredToken(store) != "" ==>
            AuthorizationHeader in r.headers && r.headers[AuthorizationHeader] == BearerValue(StoredToken(store)))
  {
    var merged := MergeHeaders(common, map[]);
    assert ContentTypeHeader in InstanceHeaders && "Accept" in InstanceHeaders;
    assert merged[ContentTypeHeader] == "application/json" && merged["Accept"] == "application/json";
  }

  /** An HTTP response the server sent with an error status, and the `message`
      field of its JSON body ("" when absent). */
  datatype ErrorResponse = ErrorResponse(status: int, serverMessage: string)

  /** A rejected request: `error.response` when the server answered, and
      `error.message` ("Network Error" when nothing came back). */
  datatype ApiError = ApiError(response: ErrorResponseOption, message: string)

  datatype ErrorResponseOption = NoResponse | Response(value: ErrorResponse)

  /** `error.response?.data?.message`, "" when there is none. */
  function ServerMessage(e: ApiError): string {
    if e.response.Response? then e.response.value.serverMessage else ""
  }

  /** `error.response?.status === code`. */
  predicate HasStatus(e: ApiError, code: int) {
    e.response.Response? && e.response.value.status == code
  }

  const NetworkErrorMessage := "Network Error"

  /** Once the stored token is gone and the common Authorization default has
      been blanked, a request that brings no Authorization of its own carries
      an empty Authorization header, never a bearer value. */
  lemma LoggedOutRequestHasNoBearer(store: Store, common: Headers, verb: Method, url: string, perRequest: Headers, data: Body)
    requires TokenKey !in store
    requires AuthorizationHeader in common && common[AuthorizationHeader] == ""
    requires AuthorizationHeader !in perRequest
    ensures var r := PrepareRequest(store, common, verb, url, perRequest, data);
      AuthorizationHeader in r.headers && r.headers[AuthorizationHeader] == ""
  {
    assert AuthorizationHeader !in InstanceHeaders;
  }
}
