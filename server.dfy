/** The server-side API helper: it refuses to call the backend without a
    session access token, builds the request URL and headers, and turns the
    backend's status code into a result or one of two error kinds. */
module ServerApi {
  import opened Js
  import Auth

  const DefaultUnauthorizedMessage: string := "Unauthorized"
  const NoSessionMessage: string := "No valid session found"
  const SessionExpiredMessage: string := "Session expired or invalid"
  const RequestFailedPrefix: string := "API request failed: "

  /** The two error classes the helper throws. */
  datatype ApiFailure =
    | UnauthorizedError(message: string)
    | ApiError(message: string, status: int)
  {
    /** The `name` property each error class sets. */
    function Name(): string {
      if UnauthorizedError? then "UnauthorizedError" else "ApiError"
    }
  }

  /** `new UnauthorizedError(message?)`: the message defaults to "Unauthorized". */
  function NewUnauthorizedError(message: Option<string>): ApiFailure {
    UnauthorizedError(Coalesce(message, DefaultUnauthorizedMessage))
  }

  /** The base URL without one trailing `/`, if it has one. */
  function StripTrailingSlash(base: string): (r: string)
    // exactly one slash is removed when there is one, never more
    ensures EndsWith(base, "/") ==> r + "/" == base
    ensures !EndsWith(base, "/") ==> r == base
  {
    if EndsWith(base, "/") then base[..|base| - 1] else base
  }

  /** The request path with a leading `/`, added only when it is missing. */
  function CleanPath(path: string): (r: string)
    ensures StartsWith(r, "/")
    ensures StartsWith(path, "/") ==> r == path
    ensures !StartsWith(path, "/") ==> r == "/" + path
  {
    if StartsWith(path, "/") then path else "/" + path
  }

  /** The full request URL. */
  function JoinUrl(base: string, path: string): (url: string)
    // the base loses its final `/`, if it has one, and the path gains a
    // leading `/`, if it lacks one; nothing else is added or removed
    ensures !EndsWith(base, "/") && StartsWith(path, "/") ==> url == base + path
    ensures !EndsWith(base, "/") && !StartsWith(path, "/") ==> url == base + "/" + path
    ensures EndsWith(base, "/") && StartsWith(path, "/") ==> url == base[..|base| - 1] + path
    ensures EndsWith(base, "/") && !StartsWith(path, "/") ==> url == base[..|base| - 1] + "/" + path
  {
    StripTrailingSlash(base) + CleanPath(path)
  }

  /** What is left of a base that does not end in `//` does not end in `/`. */
  lemma {:induction false} StrippedBaseEnd(base: string)
    requires !EndsWith(base, "//")
    ensures var b := StripTrailingSlash(base); b == [] || b[|b| - 1] != '/'
  {
    var b := StripTrailingSlash(base);
    if b != [] {
      if EndsWith(base, "/") {
        assert base[|base| - 2..] == [b[|b| - 1], '/'];
      } else {
        assert base[|base| - 1..] == [b[|b| - 1]];
      }
    }
  }

  /** A path that does not start with `//` has no second `/` after cleaning. */
  lemma {:induction false} CleanPathSecond(path: string)
    requires !StartsWith(path, "//")
    ensures var c := CleanPath(path); |c| == 1 || c[1] != '/'
  {
    var c := CleanPath(path);
    if |c| > 1 {
      if StartsWith(path, "/") {
        assert path[..2] == ['/', c[1]];
      } else {
        assert path[..1] == [c[1]];
      }
    }
  }

  /** When the base ends in at most one `/` and the path starts with at most
      one, base and path are joined by exactly one `/`. */
  lemma {:induction false} JunctionHasOneSlash(base: string, path: string)
    requires !EndsWith(base, "//")
    requires !StartsWith(path, "//")
    ensures var k := |StripTrailingSlash(base)|;
      var url := JoinUrl(base, path);
      && k < |url| && url[k] == '/'
      && (k == 0 || url[k - 1] != '/')
      && (k + 1 == |url| || url[k + 1] != '/')
  {
    var b, c := StripTrailingSlash(base), CleanPath(path);
    StrippedBaseEnd(base);
    CleanPathSecond(path);
    var url := JoinUrl(base, path);
    assert url == b + c;
    assert url[|b|] == c[0];
    assert |b| > 0 ==> url[|b| - 1] == b[|b| - 1];
    assert |c| > 1 ==> url[|b| + 1] == c[1];
  }

  /** The headers every call sends unless the caller overrides them. */
  function DefaultHeaders(accessToken: string): (h: map<string, string>)
    ensures h.Keys == {"Content-Type", "Accept", "Authorization"}
    ensures h["Content-Type"] == "application/json" && h["Accept"] == "application/json"
    ensures h["Authorization"] == "Bearer " + accessToken
  {
    map["Content-Type" := "application/json", "Accept" := "application/json",
        "Authorization" := "Bearer " + accessToken]
  }

  /** The defaults spread first and the caller's headers spread after them. */
  function MergeHeaders(accessToken: string, caller: Option<map<string, string>>): (h: map<string, string>)
    ensures caller.None? ==> h == DefaultHeaders(accessToken)
    ensures caller.Some? ==> h.Keys == DefaultHeaders(accessToken).Keys + caller.value.Keys
    // every header the caller gives wins, the Authorization header included
    ensures caller.Some? ==> forall k :: k in caller.value ==> h[k] == caller.value[k]
    ensures caller.Some? ==> forall k :: k in DefaultHeaders(accessToken) && k !in caller.value ==>
      h[k] == DefaultHeaders(accessToken)[k]
  {
    if caller.Some? then DefaultHeaders(accessToken) + caller.value else DefaultHeaders(accessToken)
  }

  /** The bearer token is sent unless the caller names its own Authorization header. */
  lemma {:induction false} AuthorizationHeader(accessToken: string, caller: Option<map<string, string>>)
    ensures "Authorization" in MergeHeaders(accessToken, caller)
    ensures MergeHeaders(accessToken, caller)["Authorization"] ==
      if caller.Some? && "Authorization" in caller.value then caller.value["Authorization"]
      else "Bearer " + accessToken
  {
  }

  /** The options a caller may pass; a missing field is left to `fetch`. */
  datatype RequestInit = RequestInit(
    httpMethod: Option<string>,
    body: Option<string>,
    cache: Option<string>,
    headers: Option<map<string, string>>)

  /** What is handed to `fetch`. */
  datatype Request = Request(
    url: string,
    httpMethod: Option<string>,
    body: Option<string>,
    cache: string,
    headers: map<string, string>)

  function BuildRequest(apiUrl: string, path: string, init: Option<RequestInit>, accessToken: string): (req: Request)
    ensures req.url == JoinUrl(apiUrl, path)
    // the caller's options are passed on, except that caching is always off
    ensures req.cache == "no-store"
    ensures init.Some? ==> req.httpMethod == init.value.httpMethod && req.body == init.value.body
    ensures init.None? ==> req.httpMethod.None? && req.body.None?
    ensures req.headers == MergeHeaders(accessToken, if init.Some? then init.value.headers else None)
  {
    var headers := MergeHeaders(accessToken, if init.Some? then init.value.headers else None);
    if init.Some? then Request(JoinUrl(apiUrl, path), init.value.httpMethod, init.value.body, "no-store", headers)
    else Request(JoinUrl(apiUrl, path), None, None, "no-store", headers)
  }

  /** The backend's answer: its status line and its parsed JSON body. */
  datatype HttpResponse<T> = HttpResponse(status: int, statusText: string, body: T)

  /** `response.ok`. */
  function IsOk(status: int): (ok: bool)
    // the status is in the 2xx class, so 401 and 403 are never ok
    ensures ok <==> status / 100 == 2
    ensures ok ==> status != 401 && status != 403
  {
    200 <= status <= 299
  }

  /** The result of a call, given the backend's response. */
  function Classify<T>(response: HttpResponse<T>): (r: Result<T, ApiFailure>)
    // 401 and 403 mean the session is no longer accepted
    ensures (response.status == 401 || response.status == 403) <==>
      r == Failure(UnauthorizedError(SessionExpiredMessage))
    // every other failure status is an ApiError carrying that status
    ensures r.Failure? && r.error.ApiError? <==>
      !IsOk(response.status) && response.status != 401 && response.status != 403
    ensures r.Failure? && r.error.ApiError? ==>
      r.error == ApiError(RequestFailedPrefix + response.statusText, response.status)
    // a 2xx status yields the body
    ensures r.Success? <==> IsOk(response.status)
    ensures r.Success? ==> r.value == response.body
  {
    if response.status == 401 || response.status == 403 then Failure(NewUnauthorizedError(Some(SessionExpiredMessage)))
    else if !IsOk(response.status) then Failure(ApiError(RequestFailedPrefix + response.statusText, response.status))
    else Success(response.body)
  }

  /** The request made, if any, and what the call returns or throws. */
  datatype CallOutcome<T> = CallOutcome(request: Option<Request>, result: Result<T, ApiFailure>)

  /** The session has an access token worth sending. */
  function HasAccessToken(session: Option<Auth.SessionView>): (r: bool)
    // a session, with an access token, that is not the empty string
    ensures r <==> session.Some? && session.value.accessToken.Some? && session.value.accessToken.value != ""
  {
    session.Some? && Truthy(session.value.accessToken)
  }

  /** `serverApi(path, init)`: `session` is what the session library returns
      and `respond` what the backend answers to a request. */
  function Call<T>(session: Option<Auth.SessionView>, apiUrl: string, path: string,
                   init: Option<RequestInit>, respond: Request -> HttpResponse<T>): (r: CallOutcome<T>)
    // no access token: no request, and an UnauthorizedError
    ensures !HasAccessToken(session) <==> r.request.None?
    ensures !HasAccessToken(session) ==> r.result == Failure(UnauthorizedError(NoSessionMessage))
    // otherwise exactly one request, sent with the session's bearer token
    ensures HasAccessToken(session) ==>
      && r.request == Some(BuildRequest(apiUrl, path, init, session.value.accessToken.value))
      && r.result == Classify(respond(r.request.value))
  {
    if !HasAccessToken(session) then CallOutcome(None, Failure(NewUnauthorizedError(Some(NoSessionMessage))))
    else
      var request := BuildRequest(apiUrl, path, init, session.value.accessToken.value);
      CallOutcome(Some(request), Classify(respond(request)))
  }

  /** A call sends the session's token as a bearer token unless the caller
      overrides the Authorization header. */
  lemma {:induction false} CallSendsBearerToken<T>(session: Option<Auth.SessionView>, apiUrl: string,
      path: string, init: Option<RequestInit>, respond: Request -> HttpResponse<T>)
    requires HasAccessToken(session)
    requires init.None? || init.value.headers.None? || "Authorization" !in init.value.headers.value
    ensures var r := Call(session, apiUrl, path, init, respond);
      r.request.Some? && r.request.value.headers["Authorization"] == "Bearer " + session.value.accessToken.value
  {
  }

  /** The `name` a caller can test tells the two failures apart: a call fails
      with "UnauthorizedError" exactly when it had no token or the backend
      answered 401 or 403, and with "ApiError" on any other failure. */
  lemma {:induction false} CallErrorName<T>(session: Option<Auth.SessionView>, apiUrl: string,
      path: string, init: Option<RequestInit>, respond: Request -> HttpResponse<T>)
    ensures var r := Call(session, apiUrl, path, init, respond);
      r.result.Failure? ==>
        && (r.result.error.Name() == "UnauthorizedError" <==>
              !HasAccessToken(session) || respond(r.request.value).status in {401, 403})
        && (r.result.error.Name() == "ApiError" <==>
              HasAccessToken(session) && !IsOk(respond(r.request.value).status)
              && respond(r.request.value).status !in {401, 403})
  {
  }
}
