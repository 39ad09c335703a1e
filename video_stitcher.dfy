/** The Shotstack stitching client (`VideoStitcher`): a timeline builder
    that lays the clips end to end on one track, a client that submits the
    edit and polls the render job for at most 40 attempts, and the provider
    that chains the two. HTTP replies are parameters: the reply to the
    submission as a function of the edit, and the reply to the n-th query
    of a status URL. */
module VideoStitcher {
  import opened Wrappers
  import Strings

  datatype ClipInput = ClipInput(uri: string, duration: real)

  datatype VideoResolution = Sd | Hd | FullHd {
    function Name(): string {
      match this
      case Sd => "sd"
      case Hd => "hd"
      case FullHd => "1080"
    }
  }

  /** One timeline entry: a video asset played from `start` for `length` seconds. */
  datatype ShotstackClip = ShotstackClip(src: string, start: real, length: real)

  /** The edit: the tracks of the timeline and the output settings. */
  datatype ShotstackEdit = ShotstackEdit(tracks: seq<seq<ShotstackClip>>, format: string, resolution: VideoResolution)

  const ApiKeyMissing: string := "Shotstack API key is missing. Please set SHOTSTACK_API_KEY in your environment."
  const ApiUrlMissing: string := "Shotstack API URL is not configured."
  const InvalidInput: string := "Invalid input: Requires an array of valid clip input objects."
  const RenderSubmitFailed: string := "Failed to submit video stitching job to Shotstack API."
  const RenderPollFailed: string := "Failed to get status update for the Shotstack render job."
  const RenderFailed: string := "Shotstack video stitching job failed."
  const Unknown: string := "An unknown error occurred during Shotstack video stitching."

  const DefaultApiUrl: string := "https://api.shotstack.io/stage/render"
  const PollIntervalMs: nat := 3000
  const MaxPollAttempts: nat := 40

  // ---------------------------------------------------------------- timeline

  /** `validateClips`: None when the clips are acceptable, else the message.
      A non-http URI only logs a warning. */
  function ValidateClips(clips: seq<ClipInput>): (r: Option<string>)
    ensures r.None? <==> |clips| >= 1 && forall i :: 0 <= i < |clips| ==> clips[i].duration > 0.0
    ensures |clips| == 0 ==> r == Some(InvalidInput + " Requires at least one clip input object.")
    ensures |clips| >= 1 && r.Some? ==>
              r == Some(InvalidInput + " Each input must have a valid string 'uri' and positive number 'duration'.")
  {
    if |clips| < 1 then Some(InvalidInput + " Requires at least one clip input object.")
    else if exists i :: 0 <= i < |clips| && clips[i].duration <= 0.0 then
      Some(InvalidInput + " Each input must have a valid string 'uri' and positive number 'duration'.")
    else None
  }

  /** Validation looks at the durations only: changing the URIs changes nothing. */
  lemma ValidationIgnoresUris(clips: seq<ClipInput>, uris: seq<string>)
    requires |uris| == |clips|
    ensures ValidateClips(seq(|clips|, i requires 0 <= i < |clips| => ClipInput(uris[i], clips[i].duration)))
         == ValidateClips(clips)
  {
    var renamed := seq(|clips|, i requires 0 <= i < |clips| => ClipInput(uris[i], clips[i].duration));
    assert forall i :: 0 <= i < |clips| ==> renamed[i].duration == clips[i].duration;
    SameDurationsSameValidation(renamed, clips);
  }

  lemma SameDurationsSameValidation(a: seq<ClipInput>, b: seq<ClipInput>)
    requires |a| == |b| && forall i :: 0 <= i < |a| ==> a[i].duration == b[i].duration
    ensures ValidateClips(a) == ValidateClips(b)
  {
    if |a| >= 1 && (forall i :: 0 <= i < |a| ==> a[i].duration > 0.0) {
      assert ValidateClips(a).None? && ValidateClips(b).None?;
    }
  }

  /** The total duration of the clips. */
  function TotalDuration(clips: seq<ClipInput>): real {
    if clips == [] then 0.0 else TotalDuration(clips[..|clips| - 1]) + clips[|clips| - 1].duration
  }

  /** The single track: each clip starts where the previous ones end. */
  function Timeline(clips: seq<ClipInput>): (t: seq<ShotstackClip>)
    ensures |t| == |clips|
  {
    if clips == [] then []
    else
      var init := clips[..|clips| - 1];
      Timeline(init) + [ShotstackClip(clips[|clips| - 1].uri, TotalDuration(init), clips[|clips| - 1].duration)]
  }

  /** Entry i plays clip i, for its duration, starting at the sum of the durations before it. */
  lemma {:induction false} TimelineEntry(clips: seq<ClipInput>, i: int)
    requires 0 <= i < |clips|
    ensures Timeline(clips)[i] == ShotstackClip(clips[i].uri, TotalDuration(clips[..i]), clips[i].duration)
    decreases |clips|
  {
    var init := clips[..|clips| - 1];
    if i < |clips| - 1 {
      TimelineEntry(init, i);
      assert init[..i] == clips[..i];
    } else {
      assert init == clips[..i];
    }
  }

  /** Starts are prefix sums: the first clip starts at 0 and each next clip
      starts where the previous one ends, so the clips neither overlap nor
      leave gaps. */
  lemma TimelineStartsArePrefixSums(clips: seq<ClipInput>, i: int)
    requires 0 <= i < |clips|
    ensures Timeline(clips)[0].start == 0.0
    ensures i + 1 < |clips| ==> Timeline(clips)[i + 1].start == Timeline(clips)[i].start + Timeline(clips)[i].length
  {
    TimelineEntry(clips, 0);
    assert clips[..0] == [];
    TimelineEntry(clips, i);
    if i + 1 < |clips| {
      TimelineEntry(clips, i + 1);
      assert clips[..i + 1][..i] == clips[..i];
    }
  }

  /** The edit `createEditPayload` builds: one track, format mp4. */
  function EditPayload(clips: seq<ClipInput>, resolution: VideoResolution): (r: Result<ShotstackEdit>)
    ensures r.Err? <==> ValidateClips(clips).Some?
    ensures r.Ok? ==> |r.value.tracks| == 1 && |r.value.tracks[0]| == |clips| >= 1
                      && r.value.format == "mp4" && r.value.resolution == resolution
  {
    var invalid := ValidateClips(clips);
    if invalid.Some? then Err(invalid.value) else Ok(ShotstackEdit([Timeline(clips)], "mp4", resolution))
  }

  /** `createEditPayload`: builds the track by accumulating the start time.
      (Its check for an empty track cannot fire once validation passed and
      is not modelled.) */
  method CreateEditPayload(clips: seq<ClipInput>, resolution: VideoResolution) returns (r: Result<ShotstackEdit>)
    ensures r == EditPayload(clips, resolution)
  {
    var invalid := ValidateClips(clips);
    if invalid.Some? {
      return Err(invalid.value);
    }
    var currentStartTime := 0.0;
    var shotstackClips: seq<ShotstackClip> := [];
    for i := 0 to |clips|
      invariant shotstackClips == Timeline(clips[..i])
      invariant currentStartTime == TotalDuration(clips[..i])
    {
      assert clips[..i + 1][..i] == clips[..i];
      shotstackClips := shotstackClips + [ShotstackClip(clips[i].uri, currentStartTime, clips[i].duration)];
      currentStartTime := currentStartTime + clips[i].duration;
    }
    assert clips[..|clips|] == clips;
    r := Ok(ShotstackEdit([shotstackClips], "mp4", resolution));
  }

  // ---------------------------------------------------------------- client

  /** `ShotstackApiClient`: its key and URL never change after construction. */
  datatype ShotstackApiClient = ShotstackApiClient(apiKey: string, apiUrl: string)

  /** The constructor: the key is checked before the URL. */
  function NewClient(apiKey: string, apiUrl: string): (r: Result<ShotstackApiClient>)
    ensures apiKey == "" ==> r == Err(ApiKeyMissing)
    ensures apiKey != "" && apiUrl == "" ==> r == Err(ApiUrlMissing)
    ensures apiKey != "" && apiUrl != "" ==> r == Ok(ShotstackApiClient(apiKey, apiUrl))
  {
    if apiKey == "" then Err(ApiKeyMissing)
    else if apiUrl == "" then Err(ApiUrlMissing)
    else Ok(ShotstackApiClient(apiKey, apiUrl))
  }

  /** What the submission request yields. */
  datatype SubmitReply =
    | SubmitThrown(message: string)                        // fetch or JSON parsing threw
    | SubmitNotOk(status: int, body: string)
    | SubmitParsed(success: bool, message: string, renderId: Option<string>)

  /** `submitRenderJob`, given the reply. */
  function SubmitRenderJob(reply: SubmitReply): (r: Result<string>)
    ensures r.Ok? <==> reply.SubmitParsed? && reply.success && reply.renderId.Some? && reply.renderId.value != ""
    ensures r.Ok? ==> r.value == reply.renderId.value
    ensures reply.SubmitParsed? && r.Err? ==> Strings.StartsWith(r.error, RenderSubmitFailed)
  {
    match reply
    case SubmitThrown(m) => Err(m)
    case SubmitNotOk(status, body) =>
      Err("API request failed with status " + Strings.IntToString(status) + ". Body: " + body)
    case SubmitParsed(success, message, renderId) =>
      if !success || renderId.None? || renderId.value == "" then
        Err(RenderSubmitFailed + " (Reason: " + (if message != "" then message else "Invalid response structure") + ")")
      else Ok(renderId.value)
  }

  datatype RenderStatus = Submitted | Queued | Rendering | Saving | Done | Failed

  /** What one status query yields. */
  datatype StatusReply =
    | StatusThrown(message: string)
    | StatusNotOk(httpStatus: int)
    | StatusParsed(success: bool, message: string, error: Option<string>, renderStatus: RenderStatus, url: Option<string>)

  /** How one attempt of the polling loop ends. */
  datatype AttemptOutcome = Finished(url: string) | Pending | AttemptError(message: string)

  function OrDefault(s: Option<string>, default: string): string {
    if s.Some? && s.value != "" then s.value else default
  }

  /** The body of the `try` in `pollJobStatus`: every throw, a 'failed' job
      included, lands in the same `catch`. */
  function Attempt(reply: StatusReply): (o: AttemptOutcome)
    ensures o.Finished? <==> reply.StatusParsed? && reply.success && reply.renderStatus == Done
                             && reply.url.Some? && reply.url.value != ""
    ensures o.Pending? <==> reply.StatusParsed? && reply.success && reply.renderStatus !in {Done, Failed}
  {
    match reply
    case StatusThrown(m) => AttemptError(m)
    case StatusNotOk(status) => AttemptError("API request failed with status " + Strings.IntToString(status))
    case StatusParsed(success, message, error, status, url) =>
      if !success then AttemptError("API returned error: " + message + " - " + OrDefault(error, "Unknown API error"))
      else if status == Done then
        if url.None? || url.value == "" then AttemptError("Shotstack job finished but returned no URL.")
        else Finished(url.value)
      else if status == Failed then AttemptError(RenderFailed + " (Reason: " + OrDefault(error, "Unknown") + ")")
      else Pending
  }

  /** The polling loop from `attempt` on; `replies(k)` answers query k. */
  function PollFrom(replies: nat -> StatusReply, attempt: nat): Result<string>
    decreases MaxPollAttempts - attempt
  {
    if attempt >= MaxPollAttempts then Err(RenderPollFailed + " (Max polling attempts reached)")
    else
      match Attempt(replies(attempt))
      case Finished(url) => Ok(url)
      case Pending => PollFrom(replies, attempt + 1)
      case AttemptError(m) =>
        if attempt == MaxPollAttempts - 1 then Err(RenderPollFailed + " (Error: " + m + ")")
        else PollFrom(replies, attempt + 1)
  }

  /** The URL every status query goes to. */
  function StatusUrl(client: ShotstackApiClient, renderId: string): string {
    client.apiUrl + "/" + renderId
  }

  /** `pollJobStatus`: every query goes to the job's status URL, and
      `status(url)(k)` answers the k-th query of `url`; `queries` is the
      number of status requests made. */
  method PollJobStatus(client: ShotstackApiClient, renderId: string, status: string -> nat -> StatusReply)
    returns (r: Result<string>, queries: nat)
    ensures r == PollFrom(status(StatusUrl(client, renderId)), 0)
    ensures 1 <= queries <= MaxPollAttempts
    ensures r.Ok? ==> Attempt(status(StatusUrl(client, renderId))(queries - 1)) == Finished(r.value)
    ensures r.Err? ==> queries == MaxPollAttempts
  {
    var statusUrl := StatusUrl(client, renderId);
    var replies := status(statusUrl);
    var attempt: nat := 0;
    while attempt < MaxPollAttempts
      invariant attempt <= MaxPollAttempts
      invariant PollFrom(replies, 0) == PollFrom(replies, attempt)
      decreases MaxPollAttempts - attempt
    {
      var outcome := Attempt(replies(attempt));
      match outcome {
        case Finished(url) =>
          return Ok(url), attempt + 1;
        case Pending =>
        case AttemptError(m) =>
          if attempt == MaxPollAttempts - 1 {
            return Err(RenderPollFailed + " (Error: " + m + ")"), attempt + 1;
          }
      }
      attempt := attempt + 1;
    }
    r, queries := Err(RenderPollFailed + " (Max polling attempts reached)"), MaxPollAttempts;
  }

  /** The loop succeeds exactly when some attempt among the first 40
      finishes, and then with the URL of the first one that does. */
  lemma {:induction false} PollFindsFirstFinished(replies: nat -> StatusReply, attempt: nat)
    requires attempt <= MaxPollAttempts
    ensures PollFrom(replies, attempt).Ok? <==>
              exists k :: attempt <= k < MaxPollAttempts && Attempt(replies(k)).Finished?
    ensures PollFrom(replies, attempt).Ok? ==>
              exists k :: attempt <= k < MaxPollAttempts && Attempt(replies(k)) == Finished(PollFrom(replies, attempt).value)
                          && forall j :: attempt <= j < k ==> !Attempt(replies(j)).Finished?
    decreases MaxPollAttempts - attempt
  {
    if attempt < MaxPollAttempts {
      PollFindsFirstFinished(replies, attempt + 1);
      if !Attempt(replies(attempt)).Finished? && PollFrom(replies, attempt).Ok? {
        var k :| attempt + 1 <= k < MaxPollAttempts && Attempt(replies(k)) == Finished(PollFrom(replies, attempt + 1).value)
                 && forall j :: attempt + 1 <= j < k ==> !Attempt(replies(j)).Finished?;
        assert forall j :: attempt <= j < k ==> !Attempt(replies(j)).Finished?;
      }
    }
  }

  /** A 'failed' job is retried like any other error: a later 'done' still wins. */
  lemma FailedStatusIsRetried(replies: nat -> StatusReply, url: string)
    requires replies(0) == StatusParsed(true, "", None, Failed, None)
    requires url != "" && replies(1) == StatusParsed(true, "", None, Done, Some(url))
    ensures PollFrom(replies, 0) == Ok(url)
  {
  }

  /** An error on the 40th attempt is final and names that attempt's error. */
  lemma LastAttemptErrorIsFinal(replies: nat -> StatusReply, m: string)
    requires Attempt(replies(MaxPollAttempts - 1)) == AttemptError(m)
    ensures PollFrom(replies, MaxPollAttempts - 1) == Err(RenderPollFailed + " (Error: " + m + ")")
  {
  }

  // ---------------------------------------------------------------- provider

  /** " `error.message || UNKNOWN` " */
  function MessageOrUnknown(m: string): string {
    if m != "" then m else Unknown
  }

  /** `ShotstackProvider.stitchVideos` (and `VideoStitcher.stitchVideos`,
      which only delegates): build the edit, submit, poll. The constructor's
      errors surface unchanged. */
  function StitchVideos(apiKey: string, apiUrl: string, clips: seq<ClipInput>,
                        submit: ShotstackEdit -> SubmitReply, status: string -> nat -> StatusReply,
                        resolution: VideoResolution := Hd): (r: Result<string>)
    ensures NewClient(apiKey, apiUrl).Err? ==> r == Err(NewClient(apiKey, apiUrl).error)
    ensures NewClient(apiKey, apiUrl).Ok? && EditPayload(clips, resolution).Err? ==>
              r == Err(MessageOrUnknown(EditPayload(clips, resolution).error))
    ensures NewClient(apiKey, apiUrl).Ok? && EditPayload(clips, resolution).Ok?
            && SubmitRenderJob(submit(EditPayload(clips, resolution).value)).Err? ==>
              r == Err(MessageOrUnknown(SubmitRenderJob(submit(EditPayload(clips, resolution).value)).error))
    ensures NewClient(apiKey, apiUrl).Ok? && EditPayload(clips, resolution).Ok?
            && SubmitRenderJob(submit(EditPayload(clips, resolution).value)).Ok? ==>
              var polled := PollFrom(status(StatusUrl(NewClient(apiKey, apiUrl).value,
                                                      SubmitRenderJob(submit(EditPayload(clips, resolution).value)).value)), 0);
              r == if polled.Ok? then polled else Err(MessageOrUnknown(polled.error))
    ensures r.Err? ==> r.error != ""
  {
    var client := NewClient(apiKey, apiUrl);
    if client.Err? then Err(client.error)
    else
      var edit := EditPayload(clips, resolution);
      if edit.Err? then Err(MessageOrUnknown(edit.error))
      else
        var renderId := SubmitRenderJob(submit(edit.value));
        if renderId.Err? then Err(MessageOrUnknown(renderId.error))
        else
          var url := PollFrom(status(StatusUrl(client.value, renderId.value)), 0);
          if url.Err? then Err(MessageOrUnknown(url.error)) else url
  }

  /** Stitching succeeds exactly when the client and the edit are built, the
      job is accepted and one of the first 40 queries of its status URL finds
      the render done, and the URL is then the first such query's URL. */
  lemma StitchSucceedsIffRenderFinishes(apiKey: string, apiUrl: string, clips: seq<ClipInput>,
                                        submit: ShotstackEdit -> SubmitReply, status: string -> nat -> StatusReply,
                                        resolution: VideoResolution)
    ensures StitchVideos(apiKey, apiUrl, clips, submit, status, resolution).Ok? <==>
              && NewClient(apiKey, apiUrl).Ok? && EditPayload(clips, resolution).Ok?
              && SubmitRenderJob(submit(EditPayload(clips, resolution).value)).Ok?
              && var replies := status(StatusUrl(NewClient(apiKey, apiUrl).value,
                                                 SubmitRenderJob(submit(EditPayload(clips, resolution).value)).value));
                 exists k :: 0 <= k < MaxPollAttempts && Attempt(replies(k)).Finished?
  {
    var client := NewClient(apiKey, apiUrl);
    var edit := EditPayload(clips, resolution);
    if client.Ok? && edit.Ok? && SubmitRenderJob(submit(edit.value)).Ok? {
      PollFindsFirstFinished(status(StatusUrl(client.value, SubmitRenderJob(submit(edit.value)).value)), 0);
    }
  }

  /** The URL `stitchVideosWithShotstack` uses: the stage endpoint when none is configured. */
  function ShotstackUrl(envApiUrl: string): (url: string)
    ensures url != ""
    ensures envApiUrl != "" ==> url == envApiUrl
  {
    if envApiUrl != "" then envApiUrl else DefaultApiUrl
  }

  /** `stitchVideosWithShotstack` */
  function StitchVideosWithShotstack(envApiKey: string, envApiUrl: string, clips: seq<ClipInput>,
                                     submit: ShotstackEdit -> SubmitReply, status: string -> nat -> StatusReply,
                                     resolution: VideoResolution := Hd): Result<string>
  {
    StitchVideos(envApiKey, ShotstackUrl(envApiUrl), clips, submit, status, resolution)
  }

  /** Through `stitchVideosWithShotstack` the client never fails for a
      missing URL: with a key it is always built, and without one the call
      fails with the key error before anything is sent. */
  lemma ShotstackUrlAlwaysConfigured(envApiKey: string, envApiUrl: string, clips: seq<ClipInput>,
                                     submit: ShotstackEdit -> SubmitReply, status: string -> nat -> StatusReply,
                                     resolution: VideoResolution)
    ensures NewClient(envApiKey, ShotstackUrl(envApiUrl)) != Err(ApiUrlMissing)
    ensures envApiKey != "" ==> NewClient(envApiKey, ShotstackUrl(envApiUrl)).Ok?
    ensures envApiKey == "" ==> StitchVideosWithShotstack(envApiKey, envApiUrl, clips, submit, status, resolution)
                                == Err(ApiKeyMissing)
  {
  }
}
