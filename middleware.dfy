/**
 * The request and response middleware of the app definition: `beforeRequest`
 * adds the bearer token to every outgoing request, and `afterResponse`
 * turns every error status into a thrown error before the caller sees it.
 */
module Middleware {
  import opened Wrappers
  import opened Js
  import opened Http

  const AuthorizationHeader := "Authorization"
  const ExpiredTokenMessage := "Access token expired"
  const ReconnectMessage := "Authentication failed. Please reconnect your Sonos account."
  // The 403 text, as two literals: the verifier reads the characters of a concatenation of short literals.
  const AccessDeniedMessage := "Access denied." + " Please verify your permissions."

  /** `HttpRequestOptions`: the request object the middleware updates in place. */
  class RequestOptions {
    var url: string
    var verb: string  // the HTTP method
    var headers: Option<map<string, string>>

    constructor (url: string, verb: string, headers: Option<map<string, string>>)
      ensures this.url == url && this.verb == verb && this.headers == headers
    {
      this.url := url;
      this.verb := verb;
      this.headers := headers;
    }
  }

  /** There are stored credentials and their access token is truthy. */
  predicate HasAccessToken(authData: Option<AuthData>) {
    authData.Some? && Truthy(authData.value.access_token)
  }

  function HeadersOrEmpty(headers: Option<map<string, string>>): map<string, string> {
    if headers.Some? then headers.value else map[]
  }

  /**
   * The headers after `beforeRequest`: with an access token, `Authorization`
   * is set to the bearer token and every other header is kept; without one
   * the headers are as they were.
   */
  function AuthorizedHeaders(headers: Option<map<string, string>>, authData: Option<AuthData>): (r: Option<map<string, string>>)
    ensures !HasAccessToken(authData) ==> r == headers
    ensures HasAccessToken(authData) ==>
      && r.Some?
      && AuthorizationHeader in r.value
      && r.value[AuthorizationHeader] == "Bearer " + authData.value.access_token.value
      && r.value.Keys == HeadersOrEmpty(headers).Keys + {AuthorizationHeader}
      && (forall k :: k in HeadersOrEmpty(headers) && k != AuthorizationHeader ==> r.value[k] == HeadersOrEmpty(headers)[k])
  {
    if HasAccessToken(authData) then
      Some(HeadersOrEmpty(headers)[AuthorizationHeader := "Bearer " + authData.value.access_token.value])
    else headers
  }

  /** `beforeRequest`: assigns `request.headers` and its `Authorization` entry, and returns the same object. */
  method BeforeRequest(request: RequestOptions, authData: Option<AuthData>) returns (r: RequestOptions)
    modifies request
    ensures r == request
    ensures request.headers == AuthorizedHeaders(old(request.headers), authData)
    ensures request.url == old(request.url) && request.verb == old(request.verb)
  {
    if HasAccessToken(authData) {
      request.headers := Some(HeadersOrEmpty(request.headers));
      request.headers := Some(request.headers.value[AuthorizationHeader := "Bearer " + authData.value.access_token.value]);
    }
    r := request;
  }

  /**
   * The try block at lines 70-80: it throws a RefreshAuthError when the body
   * names an invalid or expired token and completes normally otherwise.
   */
  function ExpiredTokenCheck<P>(json: Option<Body<P>>): (thrown: Option<Error>)
    ensures thrown.Some? <==> json.Some? && json.value.fields.error in {Some("invalid_token"), Some("token_expired")}
  {
    if json.Some? && (json.value.fields.error == Some("invalid_token") || json.value.fields.error == Some("token_expired"))
    then Some(Error(RefreshAuthError, ExpiredTokenMessage, None))
    else None
  }

  /** The try block at lines 96-100: it throws when the body has a truthy `error_description`. */
  function DescriptionCheck<P>(json: Option<Body<P>>): (thrown: Option<Error>)
    ensures thrown.Some? <==> json.Some? && Truthy(json.value.fields.error_description)
  {
    if json.Some? && Truthy(json.value.fields.error_description)
    then Some(NewError("API Error: " + json.value.fields.error_description.value))
    else None
  }

  /**
   * `afterResponse`. Whatever the two try blocks throw is caught by their own
   * empty catch clauses (lines 81 and 101), so execution always reaches the
   * generic throw that follows them.
   */
  function AfterResponse<P>(response: Response<P>): (r: Outcome<Response<P>>)
    ensures r.Success? <==> response.status < 400
    ensures r.Success? ==> r.value == response
    ensures response.status == 401 ==> r == Failure(Error(RefreshAuthError, ReconnectMessage, None))
    ensures response.status == 403 ==> r == Failure(NewError(AccessDeniedMessage))
    ensures response.status >= 400 && response.status != 401 && response.status != 403 ==>
      r == Failure(NewError("API request failed with status " + IntToString(response.status) + ": " + response.content))
    ensures r.Failure? ==> r.error.json.None? && (r.error.kind == RefreshAuthError <==> response.status == 401)
  {
    if response.status == 401 then
      match ExpiredTokenCheck(response.json)
      case Some(_) => Failure(Error(RefreshAuthError, ReconnectMessage, None))  // thrown, then caught
      case None => Failure(Error(RefreshAuthError, ReconnectMessage, None))
    else if response.status == 403 then
      Failure(NewError(AccessDeniedMessage))
    else if response.status >= 400 then
      match DescriptionCheck(response.json)
      case Some(_) => Failure(NewError("API request failed with status " + IntToString(response.status) + ": " + response.content))  // thrown, then caught
      case None => Failure(NewError("API request failed with status " + IntToString(response.status) + ": " + response.content))
    else
      Success(response)
  }

  /** A 401 ends the same way whatever its body, even one whose check throws "Access token expired". */
  lemma UnauthorizedIgnoresBody<P>(a: Response<P>, b: Response<P>)
    requires a.status == 401 && b.status == 401
    ensures AfterResponse(a) == AfterResponse(b)
    ensures AfterResponse(a).error.message == ReconnectMessage
  {
  }

  /** An `error_description` in the body is never what a failing status reports. */
  lemma DescriptionNeverSurfaced<P>(response: Response<P>)
    requires response.status >= 400 && DescriptionCheck(response.json).Some?
    ensures AfterResponse(response).Failure?
    ensures AfterResponse(response).error != DescriptionCheck(response.json).value
  {
    var m := AfterResponse(response).error.message;
    var d := DescriptionCheck(response.json).value.message;
    var prefix := "API Error: ";
    assert d == prefix + response.json.value.fields.error_description.value;
    assert d[1] == 'P' && d[4] == 'E';
    if response.status == 403 {
      assert m == AccessDeniedMessage;
      assert m[1] == 'c';
    } else if response.status != 401 {
      var generic := "API request failed with status ";
      assert m == generic + IntToString(response.status) + ": " + response.content;
      assert m[4] == generic[4] == 'r';
    }
  }
}
