# Cast2Sonos Zapier integration — a Dafny model of its request logic

The integration lets Zapier play audio on Sonos speakers through the Cast2Sonos
proxy API. Around each HTTP call it has small deterministic logic:

- the OAuth 2.0 authorization-code exchange with PKCE (RFC 6749 section 4.1.3,
  RFC 7636 section 4.5);
- the refresh grant (RFC 6749 section 6);
- the whoami connection test;
- the two middleware hooks that add the bearer token to every request and
  turn error statuses into thrown errors;
- the shared playback dispatcher and its error-message rewriting;
- household / group / player discovery with household suffixes;
- the "All Groups" dropdown, the "Play Audio" clip action and the
  "Stream File/Url" action.

Every `z.request` call is an input to the model, not I/O. Each is an `Outcome`
of a `Response` (status, raw content, optional parsed JSON body), where a failed
`Outcome` is an error the platform or the middleware threw. Each operation is
a function from its inputs and those outcomes to `Outcome<T>`, which is the
value it resolves to or the error it throws.

Where the code dereferences an absent JSON body (for example `result.successful`
on a 200 without a body), the model throws a `TypeError` with the runtime's
text "Cannot read properties of undefined (reading '…')".

Modules (one per source file, plus shared value types):

- `Wrappers`: `Option` and `Result`.
- `Js`: JavaScript truthiness, the `||` default, number rendering in template
  literals, and `slice(-k)`.
- `Http`: response, error and credential shapes.
- `Authentication`: `src/authentication.ts`.
- `Middleware`: `src/index.ts`. `beforeRequest` is a method on a
  `RequestOptions` object whose `headers` field it reassigns in place.
- `FileInput`: the file-field-to-URL rule the two create actions share.
- `SonosPlayback`: `src/common/sonosPlayback.ts`.
- `SonosData`: `src/common/sonosData.ts`.
- `SonosGroups`: `src/triggers/sonosGroups.ts`.
- `SonosPlayAudioClip`: `src/creates/sonosPlayAudioClip.ts`. It builds the
  request body step by step in a method.
- `SonosStreamFile`: `src/creates/sonosStreamFile.ts`.
- `Pipeline`: composes `afterResponse` with its callers. On the Zapier platform
  the middleware runs on every request, so a caller's own `status !== 200`
  branch can only see statuses below 400.

The code and its comments disagree about `afterResponse`, and the model follows
the code. The comments describe a recoverable "token expired" refresh for some
401 bodies and an "API Error: <error_description>" message for other error
statuses. In the code, both of those throws sit inside `try` blocks whose
`catch` clauses swallow them. So every 401 ends in the generic
`RefreshAuthError` "Authentication failed. Please reconnect your Sonos account.",
and every other status from 400 up (except 403) ends in
"API request failed with status N: content".

## Model

| member | source | states |
|---|---|---|
| Authentication.ExchangeRequest | src/authentication.ts:12-31 | fails with "Missing authorization code" exactly when `code` is falsy, so no request is made; otherwise the form holds exactly grant_type=authorization_code, the code, redirect_uri, client_id=zapier-client-1 and code_verifier |
| Authentication.GetAccessToken | src/authentication.ts:8-49 | missing code is reported first; a transport error propagates; status ≠ 200 gives "Token exchange failed: " + content; a missing body or falsy access_token gives "Token response missing access_token"; success holds exactly when the code is truthy and the response is a 200 with a truthy token; on success access_token, refresh_token, expires_in and scope are copied and token_type is the remote value if truthy, else "Bearer" |
| Authentication.RefreshRequest | src/authentication.ts:58-76 | fails with "Missing refresh token" exactly when the stored refresh token is falsy; otherwise the form is grant_type=refresh_token, the stored token and client_id |
| Authentication.RefreshAccessToken | src/authentication.ts:54-116 | missing refresh token is reported first; a transport error is rethrown unchanged; status ≠ 200 gives "Failed to refresh access token: " + content; a missing access_token gives "Refresh response missing access_token"; on success refresh_token is the response's if truthy, else the stored one, so it is never falsy; token_type defaults to "Bearer" |
| Authentication.TestAuth | src/authentication.ts:122-168 | fails with "Missing access token" when there is none; a transport error is rethrown; status ≠ 200 gives "Authentication failed (N): content"; success holds exactly on a 200, and the result has every member of the whoami body (its values winning) plus `authenticated`, which is `true` unless the body itself carries that key |
| Authentication.WhoamiExample | src/authentication.ts:151-159 | the body {hasSonosToken: true, message: "hello"} gives exactly {authenticated: true, hasSonosToken: true, message: "hello"}: members other than the token flags are kept |
| Authentication.RefreshChainSnoc | src/authentication.ts:92-107 | a run of refreshes extended by one more response equals one more refresh from what the run stored |
| Authentication.RefreshChainKeepsLatestRefreshToken | src/authentication.ts:92-94 | after any run of successful refreshes, the stored refresh token is the one the latest response issued with a truthy value, else the original one; after at least one refresh it is truthy |
| Middleware.RequestOptions.constructor | src/index.ts:53 | the request object holds the given url, method and headers |
| Middleware.AuthorizedHeaders | src/index.ts:55-57 | without a truthy access token the headers are unchanged; with one, the headers exist, Authorization is "Bearer " + token, the keys are the old keys plus Authorization, and every other header keeps its value |
| Middleware.BeforeRequest | src/index.ts:53-60 | returns the same request object; its headers become AuthorizedHeaders of the old headers; url and method are untouched |
| Middleware.ExpiredTokenCheck | src/index.ts:70-80 | the inner check throws exactly when there is a body whose `error` is invalid_token or token_expired |
| Middleware.DescriptionCheck | src/index.ts:96-100 | the inner check throws exactly when there is a body with a truthy error_description |
| Middleware.AfterResponse | src/index.ts:65-108 | passes exactly the statuses below 400, returning the identical response; 401 gives RefreshAuthError "Authentication failed. Please reconnect your Sonos account."; 403 gives "Access denied. Please verify your permissions."; any other status from 400 up gives "API request failed with status N: content"; no failure carries a body, and the kind is RefreshAuthError exactly for 401 |
| Middleware.UnauthorizedIgnoresBody | src/index.ts:67-88 | any two 401 responses end identically, whatever their bodies say about expired tokens |
| Middleware.DescriptionNeverSurfaced | src/index.ts:94-105 | when the body's error_description makes the inner check throw, the error that reaches the caller is still not that one |
| FileInput.FileUrl | src/creates/sonosStreamFile.ts:13 | no file gives none; a string is used as given unless empty; an object with a truthy url gives that url, and an object without one gives the object itself; a string result is never empty |
| SonosPlayback.NormalizeGroups | src/common/sonosPlayback.ts:24-34 | absent, [], ["*"] (and an empty string id) become "*"; any other list or id passes through unchanged; the result is never [], ["*"] or "" |
| SonosPlayback.NormalizeGroupsIdempotent | src/common/sonosPlayback.ts:24-34 | normalising a normalised selector changes nothing |
| SonosPlayback.PlayRequestFor | src/common/sonosPlayback.ts:37-50 | the body is the normalised groups, the url and volume unchanged, and empty metadata; the headers are exactly Authorization "Bearer " + token (as the template renders it) and Content-Type "application/json" |
| SonosPlayback.GroupIds | src/common/sonosPlayback.ts:67 | the group ids of the sessions, one per session, in order |
| SonosPlayback.PlaybackOutput | src/common/sonosPlayback.ts:57-72 | id is the first successful sessionId, else "unknown"; status is "playing" exactly when something played, else "failed"; successfulGroups are the in-order group ids; failedGroups is the length of `failed`; absent arrays count as empty; url, groups, volume and timestamp are echoed |
| SonosPlayback.AttemptPlayback | src/common/sonosPlayback.ts:22-72 | a request error passes through unchanged to the catch; status ≠ 200 throws "Failed to play URL: " + (error_description, else content); a 200 without a body throws the TypeError of reading `successful`; success holds exactly for a 200 with a body and is PlaybackOutput of the url, the normalised groups, the volume and that body |
| SonosPlayback.FailureDetail | src/common/sonosPlayback.ts:76-87 | the catch message: a body's truthy error_description wins; else with a truthy errorCode it is "(reason, else message, else the error's message) [errorCode]"; otherwise the error's own message |
| SonosPlayback.PerformSonosPlayback | src/common/sonosPlayback.ts:14-99 | every failure is a plain error without a body whose message starts "Cast2Sonos playback failed: "; a thrown request error is rewritten by FailureDetail; status ≠ 200 gives the prefix + "Failed to play URL: " + (error_description, else content); a 200 without a body gives the prefix + the TypeError text; success holds exactly for a 200 with a body, and is PlaybackOutput of the normalised groups |
| SonosPlayback.PartialSuccessExample | src/common/sonosPlayback.ts:57-72 | one group played and one failed: id "s1", successfulGroups ["g1"], failedGroups 1, status "playing", groups echoed |
| SonosPlayback.NothingPlayedExample | src/common/sonosPlayback.ts:24-72 | nothing played: id "unknown", status "failed", groups "*", and volume 0 kept |
| SonosData.HouseholdLabel | src/common/sonosData.ts:73 | the suffix is empty exactly when there is at most one household |
| SonosData.HouseholdLabelsDiffer | src/common/sonosData.ts:73 | two different households of a multi-household account never get the same suffix |
| SonosData.DisplayName | src/common/sonosData.ts:76-83 | the remote name if truthy, else the kind ("Group "/"Player ") plus the last 8 characters of the id; then the household suffix |
| SonosData.SameNameDifferentHouseholds | src/common/sonosData.ts:73-83 | two devices whose unsuffixed display names agree (the same remote name, or the same id fallback) get different display names in different households of one account |
| SonosData.Options | src/common/sonosData.ts:76-83 | one option per device, in order, keeping the id and naming it by DisplayName |
| SonosData.HouseholdOptions | src/common/sonosData.ts:57-85 | a transport error propagates; status ≠ 200 gives "Failed to fetch groups for household " + id; a 200 without a body gives the TypeError; success holds exactly for a 200 with a body; its groups and players are the Options of the reported lists (absent means empty), all with this household's suffix |
| SonosData.PerHousehold | src/common/sonosData.ts:56-86 | one result per household, in order, each from the answer to that household's id with its index and the household count |
| SonosData.AllOf | src/common/sonosData.ts:88 | succeeds exactly when every result does, with every value in order; a failure is the error of some failing result |
| SonosData.HouseholdGroupLists | src/common/sonosData.ts:76-79 | one list per household: the Options of its reported groups with its suffix |
| SonosData.HouseholdPlayerLists | src/common/sonosData.ts:80-83 | one list per household: the Options of its reported players with its suffix |
| SonosData.Flatten | src/common/sonosData.ts:90-91 | the flattened list is as long as the lists together |
| SonosData.FlattenAt | src/common/sonosData.ts:90-91 | element j of list i sits in the flattened list right after every element of the lists before i |
| SonosData.FlattenFrom | src/common/sonosData.ts:90-91 | every element of the flattened list is element j of some list i: flattening invents nothing |
| SonosData.TotalLengthOfSameLengths | src/common/sonosData.ts:90-91 | total length depends only on the lists' lengths |
| SonosData.FetchSonosData | src/common/sonosData.ts:15-97 | missing credentials or token give "Please authenticate first." before any request; a households transport error propagates; status ≠ 200 gives "Failed to fetch households: " + content; a 200 without a body gives the TypeError; an absent or empty list gives "No Sonos households found for the authenticated user."; on success every household request succeeded, and groups and players are the per-household lists concatenated in household order |
| SonosData.DiscoveredGroupAt | src/common/sonosData.ts:71-91 | group j of household i is, in the result, the option right after all groups of the earlier households, with its id and its name suffixed with household i's label |
| SonosData.DiscoveredPlayerAt | src/common/sonosData.ts:72-91 | the same for player j of household i |
| SonosData.DiscoveredGroupOrigin | src/common/sonosData.ts:71-91 | every discovered group is the option of a group some household reported, with that group's id and its name suffixed by that household's label: no option is invented |
| SonosData.DiscoveredPlayerOrigin | src/common/sonosData.ts:72-91 | the same for every discovered player |
| SonosData.DiscoveredCounts | src/common/sonosData.ts:71-72 | there are exactly as many groups and players as the households reported together |
| SonosData.SingleHouseholdNoSuffix | src/common/sonosData.ts:73-78 | with one household, each group's name is the remote name or the id fallback, with no suffix |
| SonosData.FetchSucceedsIff | src/common/sonosData.ts:22-91 | discovery succeeds exactly when there is a token, the household list is a 200 with a body naming at least one household, and every household's groups request is a 200 with a body |
| SonosData.HouseholdFailureSurfaces | src/common/sonosData.ts:56-88 | once households are listed, a failed discovery carries exactly the error of one of the household requests, and no partial result is returned |
| SonosData.ExampleNames | src/common/sonosData.ts:73-78 | a group named "Living Room" is shown as "Living Room (Household 1)" in the first of two households and "Living Room (Household 2)" in the second |
| SonosData.TwoLivingRoomsExample | src/common/sonosData.ts:15-97 | two households each reporting one group called "Living Room" give exactly two options, in household order, keeping the ids and told apart by the suffixes |
| SonosGroups.PerformSonosGroups | src/triggers/sonosGroups.ts:5-12 | a discovery failure propagates; otherwise the first option is {"*", "All Groups"}, the rest are exactly the discovered groups in order, and the length is their number plus one |
| SonosGroups.GroupsIgnorePlayers | src/triggers/sonosGroups.ts:9-11 | two discoveries whose households report the same groups give the same dropdown, whatever players they report |
| SonosPlayAudioClip.ClipOutput | src/creates/sonosPlayAudioClip.ts:59-67 | id and name come from the response, playerId and timestamp are echoed, and status is the remote value if truthy, else "scheduled" (never empty) |
| SonosPlayAudioClip.BuildClipBody | src/creates/sonosPlayAudioClip.ts:18-41 | fails with "No file URL provided…" exactly for a CUSTOM clip with a falsy file URL; the body has name "Zapier Audio Clip", appId "com.casttosonos.zapier" and the clip type (the given one if truthy, else CUSTOM); streamUrl is the file URL for CUSTOM and absent otherwise; priority only if truthy; volume whenever given, 0 included |
| SonosPlayAudioClip.PerformAudioClip | src/creates/sonosPlayAudioClip.ts:4-68 | no request is made exactly when the file check fails, and a request that is made carries a body with every field BuildClipBody promises (name, appId, clip type, streamUrl, priority, volume); a transport error propagates; status ≠ 200 gives the ClipFailureMessage of the response; a 200 without a body gives the TypeError; success holds exactly for a 200 with a body and is ClipOutput of it |
| SonosPlayAudioClip.ClipFailureMessage | src/creates/sonosPlayAudioClip.ts:54-56 | "Failed to load audio clip: " followed by a truthy error_description, else a truthy message, else the response content; an absent body behaves as an empty one |
| SonosPlayAudioClip.ChimeNeedsNoFile | src/creates/sonosPlayAudioClip.ts:27-37 | a CHIME clip without a file still builds a body, and that body has no streamUrl |
| SonosStreamFile.PerformStreamFile | src/creates/sonosStreamFile.ts:5-25 | a falsy file URL fails with "No file URL provided. Please ensure a file is selected." and makes no call; otherwise the result is exactly the dispatcher's for that URL, the given groups and volume, and the stored access token |
| SonosStreamFile.StreamsGivenUrl | src/creates/sonosStreamFile.ts:13-24 | a non-empty URL string is played and echoed as given, with the normalised groups and the given volume |
| Js.NatToString | src/common/sonosData.ts:73 | the decimal rendering of a number is never empty |
| Js.NatToStringInjective | src/common/sonosData.ts:73 | different numbers render differently |
| Js.SliceLast | src/common/sonosData.ts:78 | the last k characters, or the whole string when it is shorter; the string is the rest followed by the result |
| Pipeline.Send | src/index.ts:65-108 | what a caller of the request receives: transport errors and statuses below 400 unchanged, every status from 400 up a failure without a body |
| Pipeline.RefreshUnauthorized | src/authentication.ts:78-85 | a 401 during a refresh reaches the platform as RefreshAuthError "…reconnect…", not as "Failed to refresh access token" |
| Pipeline.PlaybackUnauthorized | src/common/sonosPlayback.ts:74-97 | a 401 during playback is rewritten into a plain error "Cast2Sonos playback failed: Authentication failed. Please reconnect your Sonos account." |
| Pipeline.PlaybackForbidden | src/common/sonosPlayback.ts:74-97 | a 403 during playback becomes "Cast2Sonos playback failed: Access denied. Please verify your permissions." |
| Pipeline.ExchangeErrorsComeFromMiddleware | src/authentication.ts:33-35 | with the middleware in front, every status from 400 up fails with the middleware's error, so "Token exchange failed" is reached only by other non-200 statuses |
| Pipeline.TestAuthErrorsComeFromMiddleware | src/authentication.ts:147-149 | the same for the connection test; a 401 there reaches the platform as a RefreshAuthError |
| Pipeline.HouseholdErrorsComeFromMiddleware | src/common/sonosData.ts:38-45 | a households status from 400 up fails discovery with the middleware's error, a plain error unless it is 401 |

## Left out

- HTTP itself: request URLs, methods, the API base URL from the environment and the form encoding of the token endpoints. Responses are inputs.
- The audio-clip request's URL (which names the player) and its headers are not modelled; only its body is.
- Logging (`z.console.log` / `error`): it has no effect on results.
- Timestamps come from the clock, so they are a parameter `now`.
- Promise.all runs the per-household requests concurrently; the model maps them in order and AllOf returns the first failure by index.
- SonosData.HouseholdFailureSurfaces: when several households fail it promises only that some failing household's error is raised, because which one wins depends on timing.
- The oauth2Config block, the app registration, input-field, display and sample blocks, and the dynamic clip-type field function are platform configuration.
- JSON serialisation details, such as an undefined volume being dropped from the wire body, are not modelled.
- src/triggers/sonosPlayers.ts (the players half of discovery, passed through) and src/types.ts (declarations only) are not part of this model.
- JSON `null` versus an absent value are both None. Bodies of other shapes than the endpoint's payload are not modelled, beyond the error fields every body may carry; the whoami body is a general JSON object.
- Values thrown that are not `Error` objects (the 'Unknown error' branch of the playback catch) cannot arise from the modelled calls and are not modelled.
- Aliasing of the header map between requests: the headers are a value reassigned on the request object.
- JSON numbers in the whoami body are integers; floating point is not modelled.
- Js.SliceLast: counts Unicode characters, whereas JavaScript's `slice` counts UTF-16 code units, so an id with characters outside the Basic Multilingual Plane would be cut differently.
- Playback's TypeError on a missing body is modelled; a body whose `successful` entries lack fields is not.

