/**
 * The "Play Audio" action: build the audio-clip request body field by
 * field, send it to one player, and report the scheduled clip.
 */
module SonosPlayAudioClip {
  import opened Wrappers
  import opened Js
  import opened Http
  import opened FileInput

  const ClipName := "Zapier Audio Clip"
  const AppId := "com.casttosonos.zapier"
  const CustomClip := "CUSTOM"
  const DefaultStatus := "scheduled"
  const NoFileMessage := "No file URL provided. Please ensure a file is selected."

  /** `bundle.inputData` of the action. */
  datatype AudioClipInput = AudioClipInput(
    playerId: string,
    file: Option<FileRef>,
    volume: Option<int>,
    priority: Option<string>,
    clipType: Option<string>)

  /** The JSON body; an absent optional field is one the body does not have. */
  datatype ClipBody = ClipBody(
    name: string,
    appId: string,
    clipType: string,
    streamUrl: Option<UrlValue>,
    priority: Option<string>,
    volume: Option<int>)

  datatype AudioClipPayload = AudioClipPayload(id: Option<string>, name: Option<string>, status: Option<string>)

  datatype AudioClipOutput = AudioClipOutput(
    id: Option<string>,
    playerId: string,
    name: Option<string>,
    status: string,
    timestamp: string)

  /** The requested clip type, CUSTOM when it is falsy. */
  function SelectedClipType(input: AudioClipInput): string {
    OrElse(input.clipType, CustomClip)
  }

  /** Only a custom clip needs a file, and then its URL must not be falsy. */
  predicate MissingFile(input: AudioClipInput) {
    SelectedClipType(input) == CustomClip && FileUrl(input.file).None?
  }

  /**
   * Lines 18-41: the body sent for an input. The constant name and appId, the
   * clip type (the given one if truthy, else CUSTOM), a streamUrl for a CUSTOM
   * clip only (then never absent), a priority only if truthy, and the volume
   * whenever it is given, 0 included.
   */
  predicate IsClipBodyFor(input: AudioClipInput, body: ClipBody) {
    && body.name == ClipName && body.appId == AppId
    && body.clipType == SelectedClipType(input)
    && (Truthy(input.clipType) ==> body.clipType == input.clipType.value)
    && (!Truthy(input.clipType) ==> body.clipType == CustomClip)
    && body.streamUrl == (if SelectedClipType(input) == CustomClip then FileUrl(input.file) else None)
    && (SelectedClipType(input) == CustomClip ==> body.streamUrl.Some?)
    && body.priority == (if Truthy(input.priority) then input.priority else None)
    && body.volume == input.volume
  }

  /** The request body, or the missing-file error thrown before any request. */
  method BuildClipBody(input: AudioClipInput) returns (r: Outcome<ClipBody>)
    ensures r.Failure? <==> MissingFile(input)
    ensures r.Failure? ==> r.error == NewError(NoFileMessage)
    ensures r.Success? ==> IsClipBodyFor(input, r.value)
  {
    var selectedClipType := OrElse(input.clipType, CustomClip);
    var body := ClipBody(ClipName, AppId, selectedClipType, None, None, None);
    if selectedClipType == CustomClip {
      var fileUrl := FileUrl(input.file);
      if fileUrl.None? {
        return Failure(NewError(NoFileMessage));
      }
      body := body.(streamUrl := fileUrl);
    }
    if Truthy(input.priority) {
      body := body.(priority := input.priority);
    }
    if input.volume.Some? {
      body := body.(volume := input.volume);
    }
    r := Success(body);
  }

  /** Lines 61-67: the record for a 200 response with a body. */
  function ClipOutput(playerId: string, result: AudioClipPayload, now: string): (o: AudioClipOutput)
    ensures o.id == result.id && o.name == result.name && o.playerId == playerId && o.timestamp == now
    ensures Truthy(result.status) ==> o.status == result.status.value
    ensures !Truthy(result.status) ==> o.status == DefaultStatus
    ensures o.status != ""
  {
    AudioClipOutput(result.id, playerId, result.name, OrElse(result.status, DefaultStatus), now)
  }

  /** The message of a non-200 answer: `error_description`, else `message`, else the raw body. */
  function ClipFailureMessage(res: Response<AudioClipPayload>): (m: string)
    ensures var errorData := if res.json.Some? then res.json.value.fields else NoErrorFields;
      && (Truthy(errorData.error_description) ==> m == "Failed to load audio clip: " + errorData.error_description.value)
      && (!Truthy(errorData.error_description) && Truthy(errorData.message) ==> m == "Failed to load audio clip: " + errorData.message.value)
      && (!Truthy(errorData.error_description) && !Truthy(errorData.message) ==> m == "Failed to load audio clip: " + res.content)
  {
    var errorData := if res.json.Some? then res.json.value.fields else NoErrorFields;
    "Failed to load audio clip: " + OrElse(errorData.error_description, OrElse(errorData.message, res.content))
  }

  /**
   * `perform`: `sent` is the body of the audio-clip request, None when the
   * action fails before making it; `response` answers that request.
   */
  method PerformAudioClip(input: AudioClipInput, response: Outcome<Response<AudioClipPayload>>, now: string)
    returns (sent: Option<ClipBody>, r: Outcome<AudioClipOutput>)
    ensures sent.None? <==> MissingFile(input)
    ensures sent.None? ==> r == Failure(NewError(NoFileMessage))
    ensures sent.Some? ==> IsClipBodyFor(input, sent.value)
    ensures sent.Some? && response.Failure? ==> r == Failure(response.error)
    ensures sent.Some? && response.Success? && response.value.status != 200 ==>
      r == Failure(NewError(ClipFailureMessage(response.value)))
    ensures sent.Some? && response.Success? && response.value.status == 200 && response.value.json.None? ==>
      r == Failure(ReadOfUndefined("id"))
    ensures r.Success? <==> sent.Some? && response.Success? && response.value.status == 200 && response.value.json.Some?
    ensures r.Success? ==> r.value == ClipOutput(input.playerId, response.value.json.value.payload, now)
  {
    var body := BuildClipBody(input);
    if body.Failure? {
      return None, Failure(body.error);
    }
    sent := Some(body.value);
    if response.Failure? {
      return sent, Failure(response.error);
    }
    var res := response.value;
    if res.status != 200 {
      return sent, Failure(NewError(ClipFailureMessage(res)));
    }
    if res.json.None? {
      return sent, Failure(ReadOfUndefined("id"));
    }
    r := Success(ClipOutput(input.playerId, res.json.value.payload, now));
  }

  /** A chime needs no file: with any other clip type than CUSTOM the body carries no stream URL. */
  method ChimeNeedsNoFile(input: AudioClipInput) returns (body: ClipBody)
    requires input.clipType == Some("CHIME") && input.file.None?
    ensures body.clipType == "CHIME" && body.streamUrl.None?
  {
    var r := BuildClipBody(input);
    body := r.value;
  }
}
