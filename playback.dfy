/**
 * `performSonosPlayback`: normalise the target selector, send one play
 * command, and reduce the remote's per-group successes and failures to a
 * single playback record; every failure is rewritten into one message.
 */
module SonosPlayback {
  import opened Wrappers
  import opened Js
  import opened Http
  import opened FileInput

  /** The reserved selector meaning "all groups". */
  const Wildcard := "*"
  const FailurePrefix := "Cast2Sonos playback failed: "

  /** `string | string[]`: one group id, or a list of them. */
  datatype Groups = OneGroup(id: string) | GroupList(ids: seq<string>)

  datatype PlaybackOptions = PlaybackOptions(
    url: UrlValue,
    speakerGroups: Option<Groups>,
    volume: Option<int>,
    accessToken: Option<string>)

  /** The JSON body of the play command; `metadata` is always the empty object. */
  datatype PlayBody = PlayBody(groups: Groups, url: UrlValue, volume: Option<int>, metadata: map<string, string>)

  datatype PlayRequest = PlayRequest(headers: map<string, string>, body: PlayBody)

  datatype Session = Session(groupId: string, sessionId: string)
  datatype GroupFailure = GroupFailure(groupId: string, error: string)

  /** The play command's payload; either list may be missing. */
  datatype PlayUrlResult = PlayUrlResult(successful: Option<seq<Session>>, failed: Option<seq<GroupFailure>>)

  datatype PlayUrlOutput = PlayUrlOutput(
    id: string,
    url: UrlValue,
    groups: Groups,
    successfulGroups: seq<string>,
    failedGroups: nat,
    volume: Option<int>,
    status: string,
    timestamp: string)

  /**
   * Lines 24-34: absent, empty and `["*"]` all become the wildcard; any
   * other list, and any non-empty single id, is sent as it is.
   */
  function NormalizeGroups(speakerGroups: Option<Groups>): (g: Groups)
    ensures speakerGroups in {None, Some(GroupList([])), Some(GroupList([Wildcard])), Some(OneGroup(""))} ==> g == OneGroup(Wildcard)
    ensures speakerGroups.Some? && speakerGroups.value.GroupList? && speakerGroups.value.ids !in {[], [Wildcard]} ==> g == speakerGroups.value
    ensures speakerGroups.Some? && speakerGroups.value.OneGroup? && speakerGroups.value.id != "" ==> g == speakerGroups.value
    ensures g != GroupList([]) && g != GroupList([Wildcard]) && g != OneGroup("")
  {
    var groups := if speakerGroups.None? || speakerGroups == Some(OneGroup("")) then GroupList([]) else speakerGroups.value;
    var groups := if groups == GroupList([]) then OneGroup(Wildcard) else groups;
    if groups == GroupList([Wildcard]) then OneGroup(Wildcard) else groups
  }

  /** Normalising twice is normalising once: a normalised selector is sent as it is. */
  lemma NormalizeGroupsIdempotent(speakerGroups: Option<Groups>)
    ensures NormalizeGroups(Some(NormalizeGroups(speakerGroups))) == NormalizeGroups(speakerGroups)
  {
  }

  /** The play command the dispatcher sends. */
  function PlayRequestFor(options: PlaybackOptions): (r: PlayRequest)
    ensures r.body.groups == NormalizeGroups(options.speakerGroups)
    ensures r.body.url == options.url && r.body.volume == options.volume && r.body.metadata == map[]
    ensures r.headers.Keys == {"Authorization", "Content-Type"}
    ensures r.headers["Authorization"] == "Bearer " + Template(options.accessToken)
    ensures r.headers["Content-Type"] == "application/json"
  {
    PlayRequest(
      map["Authorization" := "Bearer " + Template(options.accessToken), "Content-Type" := "application/json"],
      PlayBody(NormalizeGroups(options.speakerGroups), options.url, options.volume, map[]))
  }

  /** The group id of every started session, in order. */
  function GroupIds(sessions: seq<Session>): (ids: seq<string>)
    ensures |ids| == |sessions|
    ensures forall i :: 0 <= i < |sessions| ==> ids[i] == sessions[i].groupId
  {
    if sessions == [] then [] else [sessions[0].groupId] + GroupIds(sessions[1..])
  }

  /** Lines 60-72: the playback record for a 200 response. */
  function PlaybackOutput(url: UrlValue, groups: Groups, volume: Option<int>, result: PlayUrlResult, now: string): (o: PlayUrlOutput)
    ensures var ok := OrEmpty(result.successful);
      && o.id == (if ok == [] then "unknown" else ok[0].sessionId)
      && (o.status == "playing" <==> ok != [])
      && (o.status == "failed" <==> ok == [])
      && |o.successfulGroups| == |ok|
      && (forall i :: 0 <= i < |ok| ==> o.successfulGroups[i] == ok[i].groupId)
    ensures o.failedGroups == |OrEmpty(result.failed)|
    ensures o.url == url && o.groups == groups && o.volume == volume && o.timestamp == now
  {
    var successfulGroups := OrEmpty(result.successful);
    var failedGroups := OrEmpty(result.failed);
    PlayUrlOutput(
      if |successfulGroups| > 0 then successfulGroups[0].sessionId else "unknown",
      url,
      groups,
      GroupIds(successfulGroups),
      |failedGroups|,
      volume,
      if |successfulGroups| > 0 then "playing" else "failed",
      now)
  }

  /** The try block of lines 22-72, before its catch clause sees any error. */
  function AttemptPlayback(options: PlaybackOptions, response: Outcome<Response<PlayUrlResult>>, now: string): (r: Outcome<PlayUrlOutput>)
    ensures response.Failure? ==> r == Failure(response.error)
    ensures response.Success? && response.value.status != 200 ==>
      var res := response.value;
      var description := if res.json.Some? then res.json.value.fields.error_description else None;
      r == Failure(NewError("Failed to play URL: " + OrElse(description, res.content)))
    ensures response.Success? && response.value.status == 200 && response.value.json.None? ==>
      r == Failure(ReadOfUndefined("successful"))
    ensures r.Success? <==> response.Success? && response.value.status == 200 && response.value.json.Some?
    ensures r.Success? ==>
      r.value == PlaybackOutput(options.url, NormalizeGroups(options.speakerGroups), options.volume, response.value.json.value.payload, now)
  {
    var groups := NormalizeGroups(options.speakerGroups);
    var res :- response;
    if res.status != 200 then
      var errorData := if res.json.Some? then res.json.value.fields else NoErrorFields;
      Failure(NewError("Failed to play URL: " + OrElse(errorData.error_description, res.content)))
    else if res.json.None? then
      Failure(ReadOfUndefined("successful"))
    else
      Success(PlaybackOutput(options.url, groups, options.volume, res.json.value.payload, now))
  }

  /**
   * Lines 76-87: the message the catch clause reports. A parsed body on the
   * error wins with its `error_description`, or else with its reason (or
   * message) and `errorCode`; otherwise the error's own message is kept.
   */
  function FailureDetail(error: Error): (m: string)
    ensures error.json.None? ==> m == error.message
    ensures error.json.Some? && Truthy(error.json.value.error_description) ==> m == error.json.value.error_description.value
    ensures error.json.Some? && !Truthy(error.json.value.error_description) && Truthy(error.json.value.errorCode) ==>
      var fields := error.json.value;
      m == OrElse(fields.reason, OrElse(fields.message, error.message)) + " [" + fields.errorCode.value + "]"
    ensures error.json.Some? && !Truthy(error.json.value.error_description) && !Truthy(error.json.value.errorCode) ==>
      m == error.message
  {
    if error.json.None? then error.message
    else
      var errorData := error.json.value;
      if Truthy(errorData.error_description) then errorData.error_description.value
      else if Truthy(errorData.errorCode) then
        OrElse(errorData.reason, OrElse(errorData.message, error.message)) + " [" + errorData.errorCode.value + "]"
      else error.message
  }

  /** `performSonosPlayback`. */
  function PerformSonosPlayback(options: PlaybackOptions, response: Outcome<Response<PlayUrlResult>>, now: string): (r: Outcome<PlayUrlOutput>)
    ensures r.Failure? ==>
      && r.error.kind == PlainError && r.error.json.None?
      && |FailurePrefix| <= |r.error.message| && r.error.message[..|FailurePrefix|] == FailurePrefix
    ensures response.Failure? ==> r == Failure(NewError(FailurePrefix + FailureDetail(response.error)))
    ensures response.Success? && response.value.status != 200 ==>
      var res := response.value;
      var description := if res.json.Some? then res.json.value.fields.error_description else None;
      r == Failure(NewError(FailurePrefix + ("Failed to play URL: " + OrElse(description, res.content))))
    ensures response.Success? && response.value.status == 200 && response.value.json.None? ==>
      r == Failure(NewError(FailurePrefix + ReadOfUndefined("successful").message))
    ensures r.Success? <==> response.Success? && response.value.status == 200 && response.value.json.Some?
    ensures r.Success? ==>
      r.value == PlaybackOutput(options.url, PlayRequestFor(options).body.groups, options.volume, response.value.json.value.payload, now)
  {
    match AttemptPlayback(options, response, now)
    case Success(output) => Success(output)
    case Failure(error) => Failure(NewError(FailurePrefix + FailureDetail(error)))
  }

  /** The worked example: one group plays, one fails. */
  lemma PartialSuccessExample(url: UrlValue, now: string)
    ensures
      var result := PlayUrlResult(Some([Session("g1", "s1")]), Some([GroupFailure("g2", "x")]));
      var response := Success(Response(200, "", Some(Body(result, NoErrorFields))));
      var r := PerformSonosPlayback(PlaybackOptions(url, Some(GroupList(["g1", "g2"])), None, None), response, now);
      && r.Success?
      && r.value.id == "s1" && r.value.successfulGroups == ["g1"] && r.value.failedGroups == 1
      && r.value.status == "playing" && r.value.groups == GroupList(["g1", "g2"])
  {
  }

  /** The worked example: nothing plays. */
  lemma NothingPlayedExample(url: UrlValue, now: string)
    ensures
      var result := PlayUrlResult(Some([]), None);
      var response := Success(Response(200, "", Some(Body(result, NoErrorFields))));
      var r := PerformSonosPlayback(PlaybackOptions(url, None, Some(0), None), response, now);
      && r.Success?
      && r.value.id == "unknown" && r.value.status == "failed"
      && r.value.groups == OneGroup(Wildcard) && r.value.volume == Some(0)
  {
  }
}
