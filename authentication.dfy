/**
 * OAuth token handling of the Cast2Sonos connection: the authorization-code
 * exchange with PKCE (section 4.1.3 of RFC 6749, section 4.5 of RFC 7636),
 * the refresh grant (section 6 of RFC 6749) and the whoami liveness test.
 * Each operation takes the outcome of its single `z.request` as an input.
 */
module Authentication {
  import opened Wrappers
  import opened Js
  import opened Http

  const ClientId := "zapier-client-1"
  const DefaultTokenType := "Bearer"

  /** The token endpoint's JSON payload; every field may be missing. */
  datatype TokenPayload = TokenPayload(
    access_token: Option<string>,
    refresh_token: Option<string>,
    expires_in: Option<int>,
    token_type: Option<string>,
    scope: Option<string>)

  /** The token record handed back to the host. */
  datatype TokenResponse = TokenResponse(
    access_token: string,
    refresh_token: Option<string>,
    expires_in: Option<int>,
    token_type: string,
    scope: Option<string>)

  /** `bundle.inputData` of the exchange. */
  datatype ExchangeInput = ExchangeInput(
    code: Option<string>,
    redirect_uri: Option<string>,
    code_verifier: Option<string>)

  /** A form body; an absent value is a field left undefined. */
  type Form = map<string, Option<string>>

  /** The token endpoint answered 200 with a truthy `access_token`. */
  predicate Granted(response: Outcome<Response<TokenPayload>>) {
    && response.Success?
    && response.value.status == 200
    && response.value.json.Some?
    && Truthy(response.value.json.value.payload.access_token)
  }

  function GrantedPayload(response: Outcome<Response<TokenPayload>>): TokenPayload
    requires Granted(response)
  {
    response.value.json.value.payload
  }

  /**
   * The guard and the form of the authorization-code request: no request is
   * made without a code, and the form carries the code, the redirect URI,
   * the fixed client id and the PKCE verifier.
   */
  function ExchangeRequest(input: ExchangeInput): (r: Outcome<Form>)
    ensures r.Failure? <==> !Truthy(input.code)
    ensures r.Failure? ==> r.error == NewError("Missing authorization code")
    ensures r.Success? ==> r.value.Keys == {"grant_type", "code", "redirect_uri", "client_id", "code_verifier"}
    ensures r.Success? ==> r.value["grant_type"] == Some("authorization_code") && r.value["client_id"] == Some(ClientId)
    ensures r.Success? ==> r.value["code"] == input.code && r.value["redirect_uri"] == input.redirect_uri
    ensures r.Success? ==> r.value["code_verifier"] == input.code_verifier
  {
    if !Truthy(input.code) then Failure(NewError("Missing authorization code"))
    else Success(map[
      "grant_type" := Some("authorization_code"),
      "code" := input.code,
      "redirect_uri" := input.redirect_uri,
      "client_id" := Some(ClientId),
      "code_verifier" := input.code_verifier])
  }

  /** `getAccessToken`: exchange the authorization code for tokens. */
  function GetAccessToken(input: ExchangeInput, response: Outcome<Response<TokenPayload>>): (r: Outcome<TokenResponse>)
    ensures !Truthy(input.code) ==> r == Failure(NewError("Missing authorization code"))
    ensures Truthy(input.code) && response.Failure? ==> r == Failure(response.error)
    ensures Truthy(input.code) && response.Success? && response.value.status != 200 ==>
      r == Failure(NewError("Token exchange failed: " + response.value.content))
    ensures Truthy(input.code) && response.Success? && response.value.status == 200 && !Granted(response) ==>
      r == Failure(NewError("Token response missing access_token"))
    ensures r.Success? <==> Truthy(input.code) && Granted(response)
    ensures r.Success? ==>
      var data := GrantedPayload(response);
      && Some(r.value.access_token) == data.access_token
      && r.value.refresh_token == data.refresh_token
      && r.value.expires_in == data.expires_in
      && r.value.scope == data.scope
      && (Truthy(data.token_type) ==> Some(r.value.token_type) == data.token_type)
      && (!Truthy(data.token_type) ==> r.value.token_type == DefaultTokenType)
    ensures r.Success? ==> r.value.access_token != "" && r.value.token_type != ""
  {
    var form :- ExchangeRequest(input);
    var res :- response;
    if res.status != 200 then Failure(NewError("Token exchange failed: " + res.content))
    else if !Granted(response) then Failure(NewError("Token response missing access_token"))
    else
      var data := res.json.value.payload;
      Success(TokenResponse(
        data.access_token.value,
        data.refresh_token,
        data.expires_in,
        OrElse(data.token_type, DefaultTokenType),
        data.scope))
  }

  /** The guard and the form of the refresh request. */
  function RefreshRequest(authData: AuthData): (r: Outcome<Form>)
    ensures r.Failure? <==> !Truthy(authData.refresh_token)
    ensures r.Failure? ==> r.error == NewError("Missing refresh token")
    ensures r.Success? ==> r.value.Keys == {"grant_type", "refresh_token", "client_id"}
    ensures r.Success? ==> r.value["grant_type"] == Some("refresh_token") && r.value["client_id"] == Some(ClientId)
    ensures r.Success? ==> r.value["refresh_token"] == authData.refresh_token
  {
    if !Truthy(authData.refresh_token) then Failure(NewError("Missing refresh token"))
    else Success(map[
      "grant_type" := Some("refresh_token"),
      "refresh_token" := authData.refresh_token,
      "client_id" := Some(ClientId)])
  }

  /** `refreshAccessToken`: trade the stored refresh token for a new access token. */
  function RefreshAccessToken(authData: AuthData, response: Outcome<Response<TokenPayload>>): (r: Outcome<TokenResponse>)
    ensures !Truthy(authData.refresh_token) ==> r == Failure(NewError("Missing refresh token"))
    ensures Truthy(authData.refresh_token) && response.Failure? ==> r == Failure(response.error)
    ensures Truthy(authData.refresh_token) && response.Success? && response.value.status != 200 ==>
      r == Failure(NewError("Failed to refresh access token: " + response.value.content))
    ensures Truthy(authData.refresh_token) && response.Success? && response.value.status == 200 && !Granted(response) ==>
      r == Failure(NewError("Refresh response missing access_token"))
    ensures r.Success? <==> Truthy(authData.refresh_token) && Granted(response)
    ensures r.Success? ==>
      var data := GrantedPayload(response);
      && Some(r.value.access_token) == data.access_token
      && r.value.expires_in == data.expires_in
      && r.value.scope == data.scope
      && (Truthy(data.refresh_token) ==> r.value.refresh_token == data.refresh_token)
      && (!Truthy(data.refresh_token) ==> r.value.refresh_token == authData.refresh_token)
      && (Truthy(data.token_type) ==> Some(r.value.token_type) == data.token_type)
      && (!Truthy(data.token_type) ==> r.value.token_type == DefaultTokenType)
    ensures r.Success? ==> Truthy(r.value.refresh_token) && r.value.access_token != ""
  {
    var form :- RefreshRequest(authData);
    var refreshToken := authData.refresh_token.value;
    // The catch at lines 108-115 only logs and rethrows the same error, so
    // the outcome of the try block is the outcome of the call.
    var res :- response;
    if res.status != 200 then Failure(NewError("Failed to refresh access token: " + res.content))
    else if !Granted(response) then Failure(NewError("Refresh response missing access_token"))
    else
      var data := res.json.value.payload;
      Success(TokenResponse(
        data.access_token.value,
        Some(OrElse(data.refresh_token, refreshToken)),
        data.expires_in,
        OrElse(data.token_type, DefaultTokenType),
        data.scope))
  }

  /**
   * Every top-level member of the whoami body (its flags, and any other key
   * such as `message`), or none when there is no JSON body.
   */
  function WhoamiMembers(res: Response<JsonObject>): JsonObject {
    if res.json.Some? then res.json.value.payload else map[]
  }

  /**
   * `testAuth`: `authenticated` set to true, then every member of the whoami
   * body spread over it, so a member of the body wins.
   */
  function TestAuth(authData: AuthData, response: Outcome<Response<JsonObject>>): (r: Outcome<JsonObject>)
    ensures !Truthy(authData.access_token) ==> r == Failure(NewError("Missing access token"))
    ensures Truthy(authData.access_token) && response.Failure? ==> r == Failure(response.error)
    ensures Truthy(authData.access_token) && response.Success? && response.value.status != 200 ==>
      r == Failure(NewError("Authentication failed (" + IntToString(response.value.status) + "): " + response.value.content))
    ensures r.Success? <==> Truthy(authData.access_token) && response.Success? && response.value.status == 200
    ensures r.Success? ==>
      var members := WhoamiMembers(response.value);
      && r.value.Keys == members.Keys + {"authenticated"}
      && (forall k :: k in members ==> r.value[k] == members[k])
      && ("authenticated" !in members ==> r.value["authenticated"] == JBool(true))
  {
    if !Truthy(authData.access_token) then Failure(NewError("Missing access token"))
    else
      var res :- response;
      if res.status != 200 then
        Failure(NewError("Authentication failed (" + IntToString(res.status) + "): " + res.content))
      else
        Success(map["authenticated" := JBool(true)] + WhoamiMembers(res))
  }

  /** A whoami body with a flag and a message gives back both, next to `authenticated`. */
  lemma WhoamiExample(authData: AuthData)
    requires Truthy(authData.access_token)
    ensures
      var body := map["hasSonosToken" := JBool(true), "message" := JString("hello")];
      var r := TestAuth(authData, Success(Response(200, "", Some(Body(body, NoErrorFields)))));
      r == Success(map["authenticated" := JBool(true), "hasSonosToken" := JBool(true), "message" := JString("hello")])
  {
    var body := map["hasSonosToken" := JBool(true), "message" := JString("hello")];
    var r := TestAuth(authData, Success(Response(200, "", Some(Body(body, NoErrorFields)))));
    var expected := map["authenticated" := JBool(true), "hasSonosToken" := JBool(true), "message" := JString("hello")];
    assert r.value.Keys == expected.Keys;
    assert r.value["authenticated"] == JBool(true);
    assert r.value["hasSonosToken"] == JBool(true);
    assert r.value["message"] == JString("hello");
    assert r.value == expected;
  }

  /** What the host persists from a token record. */
  function Stored(token: TokenResponse): AuthData {
    AuthData(Some(token.access_token), token.refresh_token)
  }

  /**
   * A run of automatic refreshes, each answered by the next response and
   * each starting from what the previous one stored; the first failure ends it.
   */
  function RefreshChain(stored: AuthData, responses: seq<Outcome<Response<TokenPayload>>>): Outcome<AuthData>
    decreases |responses|
  {
    if responses == [] then Success(stored)
    else
      var token :- RefreshAccessToken(stored, responses[0]);
      RefreshChain(Stored(token), responses[1..])
  }

  /** The refresh token the most recent response issued, or the original one when none issued any. */
  function LatestRefreshToken(original: Option<string>, responses: seq<Outcome<Response<TokenPayload>>>): Option<string>
    decreases |responses|
  {
    if responses == [] then original
    else
      var last := responses[|responses| - 1];
      if Granted(last) && Truthy(GrantedPayload(last).refresh_token) then GrantedPayload(last).refresh_token
      else LatestRefreshToken(original, responses[..|responses| - 1])
  }

  lemma {:induction false} RefreshChainSnoc(stored: AuthData, responses: seq<Outcome<Response<TokenPayload>>>, next: Outcome<Response<TokenPayload>>)
    ensures RefreshChain(stored, responses + [next]) ==
      match RefreshChain(stored, responses)
      case Failure(e) => Failure(e)
      case Success(s) =>
        match RefreshAccessToken(s, next)
        case Failure(e) => Failure(e)
        case Success(t) => Success(Stored(t))
    decreases |responses|
  {
    if responses == [] {
      assert [next][1..] == [];
    } else {
      assert (responses + [next])[1..] == responses[1..] + [next];
      match RefreshAccessToken(stored, responses[0])
      case Failure(e) =>
      case Success(t) => RefreshChainSnoc(Stored(t), responses[1..], next);
    }
  }

  /**
   * The means of re-authenticating is never forgotten: after any run of
   * successful refreshes the stored refresh token is the one most recently
   * issued, or the original one if no response issued a new one.
   */
  lemma {:induction false} RefreshChainKeepsLatestRefreshToken(stored: AuthData, responses: seq<Outcome<Response<TokenPayload>>>)
    requires RefreshChain(stored, responses).Success?
    ensures RefreshChain(stored, responses).value.refresh_token == LatestRefreshToken(stored.refresh_token, responses)
    ensures responses != [] ==> Truthy(RefreshChain(stored, responses).value.refresh_token)
    decreases |responses|
  {
    if responses != [] {
      var prefix, last := responses[..|responses| - 1], responses[|responses| - 1];
      assert responses == prefix + [last];
      RefreshChainSnoc(stored, prefix, last);
      RefreshChainKeepsLatestRefreshToken(stored, prefix);
    }
  }
}
