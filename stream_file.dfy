/** The "Stream File/Url" action: derive the file URL and hand it to the playback dispatcher. */
module SonosStreamFile {
  import opened Wrappers
  import opened Http
  import opened FileInput
  import opened SonosPlayback

  const NoFileMessage := "No file URL provided. Please ensure a file is selected."

  /** `bundle.inputData` of the action. */
  datatype StreamFileInput = StreamFileInput(file: Option<FileRef>, speakerGroups: Option<Groups>, volume: Option<int>)

  /** `perform`: `response` answers the play command, made only when there is a file URL. */
  function PerformStreamFile(input: StreamFileInput, authData: AuthData, response: Outcome<Response<PlayUrlResult>>, now: string): (r: Outcome<PlayUrlOutput>)
    ensures FileUrl(input.file).None? ==> r == Failure(NewError(NoFileMessage))
    ensures FileUrl(input.file).Some? ==>
      r == PerformSonosPlayback(PlaybackOptions(FileUrl(input.file).value, input.speakerGroups, input.volume, authData.access_token), response, now)
  {
    var fileUrl := FileUrl(input.file);
    if fileUrl.None? then Failure(NewError(NoFileMessage))
    else PerformSonosPlayback(PlaybackOptions(fileUrl.value, input.speakerGroups, input.volume, authData.access_token), response, now)
  }

  /** A URL string is streamed as given and echoed in the record. */
  lemma StreamsGivenUrl(url: string, input: StreamFileInput, authData: AuthData, response: Outcome<Response<PlayUrlResult>>, now: string)
    requires url != "" && input.file == Some(FileText(url))
    requires PerformStreamFile(input, authData, response, now).Success?
    ensures PerformStreamFile(input, authData, response, now).value.url == UrlText(url)
    ensures PerformStreamFile(input, authData, response, now).value.groups == NormalizeGroups(input.speakerGroups)
    ensures PerformStreamFile(input, authData, response, now).value.volume == input.volume
  {
  }
}
