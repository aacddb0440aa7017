/**
 * Every `z.request` of the app passes through `afterResponse` before the
 * caller sees it. These lemmas compose the middleware with its callers and
 * show which of their own error branches a raw server answer can still reach.
 */
module Pipeline {
  import opened Wrappers
  import opened Js
  import opened Http
  import opened Middleware
  import opened Authentication
  import opened SonosPlayback
  import opened SonosData

  /** What the caller of `z.request` receives for a raw outcome. */
  function Send<P>(raw: Outcome<Response<P>>): (r: Outcome<Response<P>>)
    ensures raw.Failure? ==> r == raw
    ensures raw.Success? && raw.value.status < 400 ==> r == raw
    ensures raw.Success? && raw.value.status >= 400 ==> r.Failure? && r.error.json.None?
  {
    if raw.Success? then AfterResponse(raw.value) else raw
  }

  /** A 401 during a token refresh reaches the caller as a RefreshAuthError, never as "Failed to refresh". */
  lemma RefreshUnauthorized(authData: AuthData, res: Response<TokenPayload>)
    requires Truthy(authData.refresh_token) && res.status == 401
    ensures RefreshAccessToken(authData, Send(Success(res))) == Failure(Error(RefreshAuthError, ReconnectMessage, None))
  {
  }

  /**
   * A 401 while playing is caught by the dispatcher and rewritten into a
   * plain error, so it no longer asks the platform to refresh the token.
   */
  lemma PlaybackUnauthorized(options: PlaybackOptions, res: Response<PlayUrlResult>, now: string)
    requires res.status == 401
    ensures PerformSonosPlayback(options, Send(Success(res)), now) == Failure(NewError(FailurePrefix + ReconnectMessage))
    ensures PerformSonosPlayback(options, Send(Success(res)), now).error.kind == PlainError
  {
    assert Send(Success(res)).error == Error(RefreshAuthError, ReconnectMessage, None);
  }

  /** A 403 while playing surfaces as the access-denied text behind the dispatcher's prefix. */
  lemma PlaybackForbidden(options: PlaybackOptions, res: Response<PlayUrlResult>, now: string)
    requires res.status == 403
    ensures PerformSonosPlayback(options, Send(Success(res)), now) == Failure(NewError(FailurePrefix + AccessDeniedMessage))
  {
    assert Send(Success(res)).error == NewError(AccessDeniedMessage);
  }

  /**
   * The action's own "Token exchange failed" branch is reached only by a
   * raw status between 201 and 399; every error status fails in the middleware.
   */
  lemma ExchangeErrorsComeFromMiddleware(input: ExchangeInput, res: Response<TokenPayload>)
    requires Truthy(input.code)
    ensures res.status >= 400 ==> GetAccessToken(input, Send(Success(res))) == Failure(AfterResponse(res).error)
    ensures 200 < res.status < 400 || res.status < 200 ==>
      GetAccessToken(input, Send(Success(res))) == Failure(NewError("Token exchange failed: " + res.content))
  {
  }

  /** The connection test reports "Authentication failed (...)" only for a raw status between 201 and 399. */
  lemma TestAuthErrorsComeFromMiddleware(authData: AuthData, res: Response<JsonObject>)
    requires Truthy(authData.access_token) && res.status != 200
    ensures res.status >= 400 ==> TestAuth(authData, Send(Success(res))) == Failure(AfterResponse(res).error)
    ensures res.status < 400 ==>
      TestAuth(authData, Send(Success(res))) == Failure(NewError("Authentication failed (" + IntToString(res.status) + "): " + res.content))
    ensures res.status == 401 ==> TestAuth(authData, Send(Success(res))).error.kind == RefreshAuthError
  {
  }

  /** An error status for the household list fails the discovery with the middleware's error. */
  lemma HouseholdErrorsComeFromMiddleware(authData: AuthData, res: Response<HouseholdsPayload>, server: GroupsServer)
    requires Truthy(authData.access_token) && res.status >= 400
    ensures FetchSonosData(Some(authData), Send(Success(res)), server) == Failure(AfterResponse(res).error)
    ensures res.status != 401 ==> FetchSonosData(Some(authData), Send(Success(res)), server).error.kind == PlainError
  {
  }
}
