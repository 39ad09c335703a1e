/** The Vidu reference-to-video client (`ViduApiService`): task creation
    with an ordered image array (the user image, then the reference images
    in id order), a polling loop with monotone progress reports and a retry
    rule for server errors, and a single status query. HTTP replies, the
    asset loader and the image conversion are parameters. */
module ViduApi {
  import opened Wrappers
  import Strings
  import JsMath
  import ImageUtils
  import ReferenceImages

  // ---------------------------------------------------------------- configuration

  const PlaceholderApiKey: string := "YOUR_VIDU_API_KEY"
  const ApiModel: string := "vidu2.0"
  const DefaultResolution: string := "720p"
  const DefaultAspectRatio: string := "16:9"
  /** `VIDU_DEFAULT_DURATION`, in seconds. */
  const DefaultDuration: real := 4.0
  const PollingIntervalMs: real := 10000.0
  const MaxPollingTimeMs: real := 300000.0

  /** `VIDU_API_KEY`: the environment value, or the placeholder when unset. */
  function ApiKey(envValue: string): (key: string)
    ensures key != ""
  {
    if envValue != "" then envValue else PlaceholderApiKey
  }

  /** `checkApiConfiguration` */
  function CheckApiConfiguration(apiKey: string): (r: Option<string>)
    ensures r.Some? <==> apiKey == ""
  {
    if apiKey == "" then Some("API_CONFIG_ERROR") else None
  }

  /** Because the key falls back to the placeholder, the check never fails. */
  lemma ConfigurationAlwaysPasses(envValue: string)
    ensures CheckApiConfiguration(ApiKey(envValue)).None?
  {
  }

  /** `MAX_POLLING_TIME_MS / POLLING_INTERVAL_MS` with the defaults. */
  lemma DefaultMaxAttempts()
    ensures MaxPollingTimeMs / PollingIntervalMs == 30.0
  {
  }

  // ---------------------------------------------------------------- task creation

  /** The JSON body of the create request. */
  datatype ViduRequest = ViduRequest(model: string, images: seq<string>, prompt: string, duration: real,
                                     aspectRatio: string, resolution: string, movementAmplitude: string)

  /** What the create request yields. */
  datatype CreateReply =
    | CreateThrown(message: string)
    | CreateNotOk(status: int, body: string, statusText: string)
    | CreateParsed(taskId: string)                  // "" when `task_id` is absent

  /** The first entry of the image array: a local user image is converted,
      anything else is sent as given. `convert` is `convertImageToBase64`. */
  function UserImageData(userImageUrl: string, convert: string -> Result<string>): (r: Result<string>)
    ensures !ImageUtils.IsLocalFileUri(userImageUrl) ==> r == Ok(userImageUrl)
    ensures ImageUtils.IsLocalFileUri(userImageUrl) && convert(userImageUrl).Ok? ==> r == convert(userImageUrl)
    ensures r.Err? ==> r.error == "Failed to prepare user image: " + convert(userImageUrl).error
  {
    if !ImageUtils.IsLocalFileUri(userImageUrl) then Ok(userImageUrl)
    else
      var data := convert(userImageUrl);
      if data.Err? then Err("Failed to prepare user image: " + data.error) else data
  }

  /** The data of one found reference image: its asset resolved to a local
      URI, then converted. */
  function ReferenceImageData(image: ReferenceImages.ReferenceImage, resolveAsset: string -> Result<string>,
                              convert: string -> Result<string>): Result<string>
  {
    var localUri := resolveAsset(image.asset);
    var data := if localUri.Err? then Err(localUri.error) else convert(localUri.value);
    if data.Err? then Err("Failed to prepare reference image \"" + image.name + "\": " + data.error) else data
  }

  /** The images `lookup` finds for the ids, in id order. */
  function Found(ids: seq<string>, lookup: string -> Option<ReferenceImages.ReferenceImage>)
    : (found: seq<ReferenceImages.ReferenceImage>)
    ensures |found| <= |ids|
  {
    if ids == [] then []
    else
      var init := Found(ids[..|ids| - 1], lookup);
      var image := lookup(ids[|ids| - 1]);
      if image.Some? then init + [image.value] else init
  }

  /** The data pushed for the reference ids: unknown ids are skipped and the
      first failing image ends the whole request. */
  function ReferenceData(ids: seq<string>, lookup: string -> Option<ReferenceImages.ReferenceImage>,
                         resolveAsset: string -> Result<string>, convert: string -> Result<string>)
    : Result<seq<string>>
  {
    if ids == [] then Ok([])
    else
      var init := ReferenceData(ids[..|ids| - 1], lookup, resolveAsset, convert);
      var image := lookup(ids[|ids| - 1]);
      if init.Err? then init
      else if image.None? then init
      else
        var data := ReferenceImageData(image.value, resolveAsset, convert);
        if data.Err? then Err(data.error) else Ok(init.value + [data.value])
  }

  /** The reference data has one entry per found image, in id order, each
      the data of that image. */
  lemma {:induction false} ReferenceDataFollowsFound(ids: seq<string>, lookup: string -> Option<ReferenceImages.ReferenceImage>,
                                                     resolveAsset: string -> Result<string>, convert: string -> Result<string>)
    requires ReferenceData(ids, lookup, resolveAsset, convert).Ok?
    ensures var data := ReferenceData(ids, lookup, resolveAsset, convert).value;
            var found := Found(ids, lookup);
            |data| == |found|
            && forall j :: 0 <= j < |data| ==> ReferenceImageData(found[j], resolveAsset, convert) == Ok(data[j])
  {
    if ids != [] {
      var init := ids[..|ids| - 1];
      ReferenceDataFollowsFound(init, lookup, resolveAsset, convert);
    }
  }

  /** Ids that `lookup` does not know contribute nothing. */
  lemma {:induction false} UnknownIdsSkipped(ids: seq<string>, lookup: string -> Option<ReferenceImages.ReferenceImage>,
                                             resolveAsset: string -> Result<string>, convert: string -> Result<string>)
    requires forall k :: 0 <= k < |ids| ==> lookup(ids[k]).None?
    ensures ReferenceData(ids, lookup, resolveAsset, convert) == Ok([])
    ensures Found(ids, lookup) == []
  {
    if ids != [] {
      var init := ids[..|ids| - 1];
      assert forall k :: 0 <= k < |init| ==> init[k] == ids[k];
      UnknownIdsSkipped(init, lookup, resolveAsset, convert);
    }
  }

  /** The image array: user image first, then the reference data. */
  function Images(userImageUrl: string, ids: seq<string>, lookup: string -> Option<ReferenceImages.ReferenceImage>,
                  resolveAsset: string -> Result<string>, convert: string -> Result<string>): (r: Result<seq<string>>)
    ensures r.Ok? ==> |r.value| >= 1 && Ok(r.value[0]) == UserImageData(userImageUrl, convert)
  {
    if userImageUrl == "" then Err("User image URL is required")
    else
      var user := UserImageData(userImageUrl, convert);
      if user.Err? then Err(user.error)
      else
        var refs := ReferenceData(ids, lookup, resolveAsset, convert);
        if refs.Err? then Err(refs.error) else Ok([user.value] + refs.value)
  }

  /** The request `createApiTask` sends, given the image array. */
  function RequestFor(prompt: string, images: seq<string>): ViduRequest {
    ViduRequest(ApiModel, images, prompt, DefaultDuration, DefaultAspectRatio, DefaultResolution, "auto")
  }

  /** The error thrown for a non-ok response. */
  function ApiError(status: int, body: string, statusText: string): string {
    "Vidu API error (" + Strings.IntToString(status) + "): " + (if body != "" then body else statusText)
  }

  /** The generation task id a create reply yields. */
  function TaskIdFrom(reply: CreateReply): (r: Result<string>)
    ensures r.Ok? <==> reply.CreateParsed? && reply.taskId != ""
    ensures r.Ok? ==> r.value == reply.taskId
  {
    match reply
    case CreateThrown(m) => Err(m)
    case CreateNotOk(status, body, statusText) =>
      Err(ApiError(status, body, statusText))
    case CreateParsed(taskId) =>
      if taskId == "" then Err("Failed to get task_id from Vidu API.") else Ok(taskId)
  }

  /** `createApiTask`. `request` is what was sent, if anything was. The
      reference images are looked up with `getReferenceImageById`, which
      matches the record's `id` field, so the catalogue's keys FROG_DRAGON
      and LEAF are skipped and a catalogue clip sends the user image alone. */
  method CreateApiTask(prompt: string, userImageUrl: string, referenceImageIds: seq<string>,
                       resolveAsset: string -> Result<string>, convert: string -> Result<string>,
                       send: ViduRequest -> CreateReply)
    returns (r: Result<string>, request: Option<ViduRequest>)
    ensures var images := Images(userImageUrl, referenceImageIds, ReferenceImages.GetReferenceImageById, resolveAsset, convert);
            && (images.Err? ==> r == Err(images.error) && request.None?)
            && (images.Ok? ==> request == Some(RequestFor(prompt, images.value))
                               && r == TaskIdFrom(send(request.value)))
    ensures userImageUrl == "" ==> r == Err("User image URL is required") && request.None?
    ensures userImageUrl != "" && UserImageData(userImageUrl, convert).Ok?
            && (forall k :: 0 <= k < |referenceImageIds| ==>
                  referenceImageIds[k] == "FROG_DRAGON" || referenceImageIds[k] == "LEAF") ==>
              request == Some(RequestFor(prompt, [UserImageData(userImageUrl, convert).value]))
  {
    if userImageUrl != "" && UserImageData(userImageUrl, convert).Ok?
       && (forall k :: 0 <= k < |referenceImageIds| ==>
             referenceImageIds[k] == "FROG_DRAGON" || referenceImageIds[k] == "LEAF") {
      CatalogueClipSendsUserImageOnlyAsWritten(userImageUrl, referenceImageIds, resolveAsset, convert);
    }
    if userImageUrl == "" {
      return Err("User image URL is required"), None;
    }
    var userImageData := userImageUrl;
    if ImageUtils.IsLocalFileUri(userImageUrl) {
      var converted := convert(userImageUrl);
      if converted.Err? {
        return Err("Failed to prepare user image: " + converted.error), None;
      }
      userImageData := converted.value;
    }
    var imageDataArray := [userImageData];
    for i := 0 to |referenceImageIds|
      invariant ReferenceData(referenceImageIds[..i], ReferenceImages.GetReferenceImageById, resolveAsset, convert).Ok?
      invariant imageDataArray == [userImageData] + ReferenceData(referenceImageIds[..i], ReferenceImages.GetReferenceImageById, resolveAsset, convert).value
    {
      assert referenceImageIds[..i + 1][..i] == referenceImageIds[..i];
      var refImage := ReferenceImages.GetReferenceImageById(referenceImageIds[i]);
      if refImage.Some? {
        var data := ReferenceImageData(refImage.value, resolveAsset, convert);
        if data.Err? {
          ReferenceDataErrorPersists(referenceImageIds, i + 1, ReferenceImages.GetReferenceImageById, resolveAsset, convert);
          return Err(data.error), None;
        }
        imageDataArray := imageDataArray + [data.value];
      }
    }
    assert referenceImageIds[..|referenceImageIds|] == referenceImageIds;
    request := Some(RequestFor(prompt, imageDataArray));
    r := TaskIdFrom(send(request.value));
  }

  /** Once a prefix of the ids fails, the whole list fails with the same error. */
  lemma {:induction false} ReferenceDataErrorPersists(ids: seq<string>, n: int, lookup: string -> Option<ReferenceImages.ReferenceImage>,
                                                      resolveAsset: string -> Result<string>, convert: string -> Result<string>)
    requires 0 <= n <= |ids| && ReferenceData(ids[..n], lookup, resolveAsset, convert).Err?
    ensures ReferenceData(ids, lookup, resolveAsset, convert) == ReferenceData(ids[..n], lookup, resolveAsset, convert)
    decreases |ids| - n
  {
    if n < |ids| {
      assert ids[..n + 1][..n] == ids[..n];
      ReferenceDataErrorPersists(ids, n + 1, lookup, resolveAsset, convert);
    } else {
      assert ids[..n] == ids;
    }
  }

  /** With the by-id lookup as the source writes it, a clip of the theme
      catalogue sends the user image alone. */
  lemma CatalogueClipSendsUserImageOnlyAsWritten(userImageUrl: string, ids: seq<string>,
                                                 resolveAsset: string -> Result<string>, convert: string -> Result<string>)
    requires userImageUrl != "" && UserImageData(userImageUrl, convert).Ok?
    requires forall k :: 0 <= k < |ids| ==> ids[k] == "FROG_DRAGON" || ids[k] == "LEAF"
    ensures Images(userImageUrl, ids, ReferenceImages.GetReferenceImageById, resolveAsset, convert)
            == Ok([UserImageData(userImageUrl, convert).value])
  {
    var lookup := ReferenceImages.GetReferenceImageById;
    forall k | 0 <= k < |ids|
      ensures lookup(ids[k]).None?
    {
      assert lookup(ids[k]) == ReferenceImages.GetReferenceImageById(ids[k]);
    }
    UnknownIdsSkipped(ids, lookup, resolveAsset, convert);
    var user := UserImageData(userImageUrl, convert).value;
    assert [user] + [] == [user];
  }

  /** Ids that `lookup` all knows are each found, in order. */
  lemma {:induction false} FoundAllKnown(ids: seq<string>, lookup: string -> Option<ReferenceImages.ReferenceImage>)
    requires forall k :: 0 <= k < |ids| ==> lookup(ids[k]).Some?
    ensures |Found(ids, lookup)| == |ids|
  {
    if ids != [] {
      var init := ids[..|ids| - 1];
      assert forall k :: 0 <= k < |init| ==> init[k] == ids[k];
      FoundAllKnown(init, lookup);
    }
  }

  /** With the lookup by record key, a catalogue clip sends the user image
      followed by one image per reference id. */
  lemma CatalogueClipSendsEveryReferenceByKey(userImageUrl: string, ids: seq<string>,
                                              resolveAsset: string -> Result<string>, convert: string -> Result<string>)
    requires forall k :: 0 <= k < |ids| ==> ids[k] == "FROG_DRAGON" || ids[k] == "LEAF"
    requires Images(userImageUrl, ids, ReferenceImages.GetReferenceImage, resolveAsset, convert).Ok?
    ensures |Images(userImageUrl, ids, ReferenceImages.GetReferenceImage, resolveAsset, convert).value| == |ids| + 1
  {
    var lookup := ReferenceImages.GetReferenceImage;
    forall k | 0 <= k < |ids|
      ensures lookup(ids[k]).Some?
    {
      assert lookup(ids[k]) == ReferenceImages.GetReferenceImage(ids[k]);
    }
    FoundAllKnown(ids, lookup);
    ReferenceDataFollowsFound(ids, lookup, resolveAsset, convert);
  }

  // ---------------------------------------------------------------- polling

  datatype TaskState = Created | Queueing | Processing | Success | TaskFailed | Unexpected(name: string)

  /** What one status request yields; `creationUrls` lists `creations[i].url`. */
  datatype TaskReply =
    | TaskThrown(message: string)
    | TaskNotOk(status: int, body: string, statusText: string)
    | TaskParsed(state: TaskState, errCode: string, creationUrls: seq<string>)

  datatype ViduTaskCompletionResult = ViduTaskCompletionResult(videoUrl: string, durationSeconds: real)

  /** How one iteration of the loop ends. `Incomplete` reports progress 1
      before it fails. */
  datatype AttemptOutcome = KeepPolling | Completed(url: string) | Incomplete | Fatal(message: string)

  const TimedOut: string := "Vidu task polling timed out."

  const IncompleteSuccess: string := "Vidu API success response incomplete."

  function TaskFailedMessage(errCode: string): string {
    "Vidu task failed: " + (if errCode != "" then errCode else "Unknown error")
  }

  /** One iteration, `attempts` already incremented. */
  function Attempt(reply: TaskReply, attempts: nat, maxAttempts: real): (o: AttemptOutcome)
    ensures o.KeepPolling? <==> (reply.TaskNotOk? && reply.status >= 500 && (attempts as real) < maxAttempts)
                                || (reply.TaskParsed? && reply.state !in {Success, TaskFailed})
    ensures o.Completed? <==> reply.TaskParsed? && reply.state == Success
                              && |reply.creationUrls| > 0 && reply.creationUrls[0] != ""
    ensures o.Completed? ==> o.url == reply.creationUrls[0]
  {
    match reply
    case TaskThrown(m) => Fatal(m)
    case TaskNotOk(status, body, statusText) =>
      if status >= 500 && (attempts as real) < maxAttempts then KeepPolling
      else Fatal(ApiError(status, body, statusText))
    case TaskParsed(state, errCode, urls) =>
      match state
      case Success => if |urls| == 0 || urls[0] == "" then Incomplete else Completed(urls[0])
      case TaskFailed => Fatal(TaskFailedMessage(errCode))
      case _ => KeepPolling
  }

  /** A run of the loop: its result, the values passed to `onProgress`, and
      the number of status requests made. `VideoService` has its own loop of
      a different shape and its own `PollRun`. */
  datatype PollRun = PollRun(result: Result<ViduTaskCompletionResult>, reports: seq<real>, queries: nat)

  /** The progress an iteration computes. */
  function ProgressAt(attempts: nat, maxAttempts: real): (p: real)
    requires maxAttempts > 0.0
    ensures p <= 0.99
    ensures attempts >= 1 ==> p > 0.0
  {
    JsMath.Min(0.99, (attempts as real) / maxAttempts)
  }

  /** What `onProgress` receives for a computed progress. */
  function Reported(progress: real, lastReported: real): seq<real> {
    if progress > lastReported then [progress] else []
  }

  function NextLast(progress: real, lastReported: real): real {
    if progress > lastReported then progress else lastReported
  }

  /** How the k-th request (from 0) ends, given the replies. */
  function Outcomes(replies: nat -> TaskReply, maxAttempts: real): nat -> AttemptOutcome {
    (k: nat) => Attempt(replies(k), k + 1, maxAttempts)
  }

  /** The loop from `attempts` on, `lastReported` being the last value
      reported and `outcome(k)` the end of the k-th iteration. */
  function PollFrom(outcome: nat -> AttemptOutcome, maxAttempts: real, attempts: nat, lastReported: real): PollRun
    decreases JsMath.Ceil(maxAttempts) - attempts
  {
    if !((attempts as real) < maxAttempts) then PollRun(Err(TimedOut), [], attempts)
    else
      var a := attempts + 1;
      var progress := ProgressAt(a, maxAttempts);
      var report := Reported(progress, lastReported);
      match outcome(attempts)
      case KeepPolling =>
        var rest := PollFrom(outcome, maxAttempts, a, NextLast(progress, lastReported));
        PollRun(rest.result, report + rest.reports, rest.queries)
      case Completed(url) => PollRun(Ok(ViduTaskCompletionResult(url, DefaultDuration)), report + [1.0], a)
      case Incomplete => PollRun(Err(IncompleteSuccess), report + [1.0], a)
      case Fatal(m) => PollRun(Err(m), report, a)
  }

  /** The loop over the replies, from the first request. */
  function Poll(replies: nat -> TaskReply, maxAttempts: real): PollRun {
    PollFrom(Outcomes(replies, maxAttempts), maxAttempts, 0, 0.0)
  }

  function Prepended(reports: seq<real>, run: PollRun): PollRun {
    PollRun(run.result, reports + run.reports, run.queries)
  }

  /** `pollApiTaskStatus`; `replies(k)` answers the k-th request (from 0),
      `maxAttempts` is `MAX_POLLING_TIME_MS / POLLING_INTERVAL_MS`. */
  method PollApiTaskStatus(taskId: string, maxAttempts: real, replies: nat -> TaskReply)
    returns (r: Result<ViduTaskCompletionResult>, reports: seq<real>, queries: nat)
    ensures PollRun(r, reports, queries) == Poll(replies, maxAttempts)
  {
    ghost var outcomes := Outcomes(replies, maxAttempts);
    var attempts: nat := 0;
    var lastReportedProgress := 0.0;
    reports := [];
    while (attempts as real) < maxAttempts
      invariant Poll(replies, maxAttempts) == Prepended(reports, PollFrom(outcomes, maxAttempts, attempts, lastReportedProgress))
      decreases JsMath.Ceil(maxAttempts) - attempts
    {
      ghost var before := reports;
      ghost var beforeLast := lastReportedProgress;
      attempts := attempts + 1;
      var progress := ProgressAt(attempts, maxAttempts);
      // a progress above the last one reported is passed on and remembered
      reports, lastReportedProgress := reports + Reported(progress, lastReportedProgress),
                                       NextLast(progress, lastReportedProgress);
      var outcome := Attempt(replies(attempts - 1), attempts, maxAttempts);
      assert outcome == outcomes(attempts - 1);
      match outcome {
        case KeepPolling =>
          KeepPollingKeepsRun(replies, maxAttempts, before, attempts - 1, beforeLast);
        case Completed(url) =>
          StopStep(outcomes, maxAttempts, attempts - 1, beforeLast);
          assert before + (Reported(progress, beforeLast) + [1.0]) == reports + [1.0];
          return Ok(ViduTaskCompletionResult(url, DefaultDuration)), reports + [1.0], attempts;
        case Incomplete =>
          StopStep(outcomes, maxAttempts, attempts - 1, beforeLast);
          assert before + (Reported(progress, beforeLast) + [1.0]) == reports + [1.0];
          return Err(IncompleteSuccess), reports + [1.0], attempts;
        case Fatal(m) =>
          StopStep(outcomes, maxAttempts, attempts - 1, beforeLast);
          return Err(m), reports, attempts;
      }
    }
    r, queries := Err(TimedOut), attempts;
  }

  /** The loop invariant of `PollApiTaskStatus` survives an iteration that keeps polling. */
  lemma KeepPollingKeepsRun(replies: nat -> TaskReply, maxAttempts: real, before: seq<real>, attempts: nat,
                            lastReported: real)
    requires (attempts as real) < maxAttempts && Outcomes(replies, maxAttempts)(attempts).KeepPolling?
    requires Poll(replies, maxAttempts) == Prepended(before, PollFrom(Outcomes(replies, maxAttempts), maxAttempts, attempts, lastReported))
    ensures var progress := ProgressAt(attempts + 1, maxAttempts);
            Poll(replies, maxAttempts)
            == Prepended(before + Reported(progress, lastReported),
                         PollFrom(Outcomes(replies, maxAttempts), maxAttempts, attempts + 1, NextLast(progress, lastReported)))
  {
    var outcomes := Outcomes(replies, maxAttempts);
    var progress := ProgressAt(attempts + 1, maxAttempts);
    KeepPollingStep(outcomes, maxAttempts, attempts, lastReported);
    PrependedTwice(before, Reported(progress, lastReported),
                   PollFrom(outcomes, maxAttempts, attempts + 1, NextLast(progress, lastReported)));
  }

  /** The iteration that ends the loop: its result, its reports, one more request. */
  lemma StopStep(outcome: nat -> AttemptOutcome, maxAttempts: real, attempts: nat, lastReported: real)
    requires (attempts as real) < maxAttempts && !outcome(attempts).KeepPolling?
    ensures var report := Reported(ProgressAt(attempts + 1, maxAttempts), lastReported);
            PollFrom(outcome, maxAttempts, attempts, lastReported)
            == match outcome(attempts)
               case Completed(url) => PollRun(Ok(ViduTaskCompletionResult(url, DefaultDuration)), report + [1.0], attempts + 1)
               case Incomplete => PollRun(Err(IncompleteSuccess), report + [1.0], attempts + 1)
               case Fatal(m) => PollRun(Err(m), report, attempts + 1)
  {
  }

  /** One iteration that keeps polling: its report, then the rest of the loop. */
  lemma KeepPollingStep(outcome: nat -> AttemptOutcome, maxAttempts: real, attempts: nat, lastReported: real)
    requires (attempts as real) < maxAttempts && outcome(attempts).KeepPolling?
    ensures var progress := ProgressAt(attempts + 1, maxAttempts);
            PollFrom(outcome, maxAttempts, attempts, lastReported)
            == Prepended(Reported(progress, lastReported),
                         PollFrom(outcome, maxAttempts, attempts + 1, NextLast(progress, lastReported)))
  {
  }

  /** The iteration that ends the loop reports its progress, then 1 on a success. */
  lemma FinalStep(outcome: nat -> AttemptOutcome, maxAttempts: real, attempts: nat, lastReported: real)
    requires (attempts as real) < maxAttempts && !outcome(attempts).KeepPolling?
    ensures var report := Reported(ProgressAt(attempts + 1, maxAttempts), lastReported);
            PollFrom(outcome, maxAttempts, attempts, lastReported).reports
            == report + if outcome(attempts).Fatal? then [] else [1.0]
  {
  }

  lemma PrependedTwice(a: seq<real>, b: seq<real>, run: PollRun)
    ensures Prepended(a, Prepended(b, run)) == Prepended(a + b, run)
  {
    assert a + (b + run.reports) == (a + b) + run.reports;
  }

  /** Every value lies above `floor` and is at most 0.99, except a final 1. */
  predicate Bounded(s: seq<real>, floor: real) {
    && (forall i :: 0 <= i < |s| ==> floor < s[i] <= 1.0)
    && (forall i :: 0 <= i < |s| ==> s[i] <= 0.99 || (i == |s| - 1 && s[i] == 1.0))
  }

  lemma BoundedAfterReport(progress: real, lastReported: real, rest: seq<real>)
    requires progress <= 0.99 && Bounded(rest, NextLast(progress, lastReported))
    ensures Bounded(Reported(progress, lastReported) + rest, lastReported)
  {
    var s := Reported(progress, lastReported) + rest;
    if progress > lastReported {
      assert forall i :: 0 < i < |s| ==> s[i] == rest[i - 1];
    } else {
      assert s == rest;
    }
  }

  lemma BoundedFinalReport(progress: real, lastReported: real, tail: seq<real>)
    requires progress <= 0.99 && (tail == [] || tail == [1.0]) && lastReported < 1.0
    ensures Bounded(Reported(progress, lastReported) + tail, lastReported)
  {
    var s := Reported(progress, lastReported) + tail;
    assert forall i :: 0 <= i < |Reported(progress, lastReported)| ==> s[i] == progress;
  }

  /** Every value reported lies above the last one reported before the
      loop, and is at most 0.99 unless it is the final report of a success,
      which is exactly 1. */
  lemma {:induction false} ReportsBounded(outcome: nat -> AttemptOutcome, maxAttempts: real, attempts: nat, lastReported: real)
    requires lastReported < 1.0
    ensures Bounded(PollFrom(outcome, maxAttempts, attempts, lastReported).reports, lastReported)
    decreases JsMath.Ceil(maxAttempts) - attempts
  {
    if (attempts as real) < maxAttempts {
      var a := attempts + 1;
      var progress := ProgressAt(a, maxAttempts);
      if outcome(attempts).KeepPolling? {
        var last := NextLast(progress, lastReported);
        ReportsBounded(outcome, maxAttempts, a, last);
        KeepPollingStep(outcome, maxAttempts, attempts, lastReported);
        BoundedAfterReport(progress, lastReported, PollFrom(outcome, maxAttempts, a, last).reports);
      } else {
        FinalStep(outcome, maxAttempts, attempts, lastReported);
        BoundedFinalReport(progress, lastReported, if outcome(attempts).Fatal? then [] else [1.0]);
        assert Reported(progress, lastReported) + [] == Reported(progress, lastReported);
      }
    }
  }

  /** The reports are strictly increasing. */
  lemma {:induction false} ReportsIncrease(outcome: nat -> AttemptOutcome, maxAttempts: real, attempts: nat, lastReported: real)
    requires lastReported < 1.0
    ensures var s := PollFrom(outcome, maxAttempts, attempts, lastReported).reports;
            forall i, j :: 0 <= i < j < |s| ==> s[i] < s[j]
    decreases JsMath.Ceil(maxAttempts) - attempts
  {
    if (attempts as real) < maxAttempts && outcome(attempts).KeepPolling? {
      var a := attempts + 1;
      var progress := ProgressAt(a, maxAttempts);
      var report := Reported(progress, lastReported);
      var last := NextLast(progress, lastReported);
      ReportsIncrease(outcome, maxAttempts, a, last);
      ReportsBounded(outcome, maxAttempts, a, last);
      var rest := PollFrom(outcome, maxAttempts, a, last).reports;
      KeepPollingStep(outcome, maxAttempts, attempts, lastReported);
      if report != [] {
        var s := [progress] + rest;
        assert forall i :: 0 < i < |s| ==> s[i] == rest[i - 1];
        assert forall i :: 0 < i < |s| ==> progress < s[i];
      }
    }
  }

  /** A success ends with the report 1 and the fixed default duration. */
  lemma {:induction false} SuccessReportsOne(outcome: nat -> AttemptOutcome, maxAttempts: real, attempts: nat, lastReported: real)
    ensures var run := PollFrom(outcome, maxAttempts, attempts, lastReported);
            run.result.Ok? ==> |run.reports| > 0 && run.reports[|run.reports| - 1] == 1.0
                               && run.result.value.durationSeconds == DefaultDuration
    decreases JsMath.Ceil(maxAttempts) - attempts
  {
    if (attempts as real) < maxAttempts {
      var a := attempts + 1;
      var progress := ProgressAt(a, maxAttempts);
      if outcome(attempts).KeepPolling? {
        SuccessReportsOne(outcome, maxAttempts, a, NextLast(progress, lastReported));
      }
    }
  }

  /** The loop makes at most `ceil(maxAttempts)` requests. */
  lemma {:induction false} QueriesBounded(outcome: nat -> AttemptOutcome, maxAttempts: real, attempts: nat, lastReported: real)
    requires (attempts as real) < maxAttempts
    ensures var run := PollFrom(outcome, maxAttempts, attempts, lastReported);
            attempts < run.queries <= JsMath.Ceil(maxAttempts)
    decreases JsMath.Ceil(maxAttempts) - attempts
  {
    var a := attempts + 1;
    var progress := ProgressAt(a, maxAttempts);
    if outcome(attempts).KeepPolling? {
      if (a as real) < maxAttempts {
        QueriesBounded(outcome, maxAttempts, a, NextLast(progress, lastReported));
      } else {
        assert JsMath.Ceil(maxAttempts) == a;
      }
    }
  }

  /** The loop succeeds exactly when some iteration completes and every one
      before it keeps polling; it gives that iteration's URL. */
  lemma {:induction false} SuccessIsFirstCompletion(outcome: nat -> AttemptOutcome, maxAttempts: real, attempts: nat, lastReported: real)
    ensures var run := PollFrom(outcome, maxAttempts, attempts, lastReported);
            run.result.Ok? <==>
              exists k :: attempts <= k && (k as real) < maxAttempts && outcome(k).Completed?
                          && forall j :: attempts <= j < k ==> outcome(j).KeepPolling?
    ensures var run := PollFrom(outcome, maxAttempts, attempts, lastReported);
            run.result.Ok? ==> run.queries >= 1 && outcome(run.queries - 1) == Completed(run.result.value.videoUrl)
    decreases JsMath.Ceil(maxAttempts) - attempts
  {
    if (attempts as real) < maxAttempts {
      var a := attempts + 1;
      var progress := ProgressAt(a, maxAttempts);
      var last := NextLast(progress, lastReported);
      var run := PollFrom(outcome, maxAttempts, attempts, lastReported);
      if outcome(attempts).KeepPolling? {
        SuccessIsFirstCompletion(outcome, maxAttempts, a, last);
        if run.result.Ok? {
          var k :| a <= k && (k as real) < maxAttempts && outcome(k).Completed?
                   && forall j :: a <= j < k ==> outcome(j).KeepPolling?;
          assert forall j :: attempts <= j < k ==> outcome(j).KeepPolling?;
        } else {
          forall k | attempts <= k && (k as real) < maxAttempts && outcome(k).Completed?
            ensures exists j :: attempts <= j < k && !outcome(j).KeepPolling?
          {
            assert k != attempts;
          }
        }
      } else if outcome(attempts).Completed? {
        assert run.result.Ok?;
      }
    }
  }

  /** When every iteration keeps polling, the loop times out. */
  lemma {:induction false} AllPendingTimesOut(outcome: nat -> AttemptOutcome, maxAttempts: real, attempts: nat, lastReported: real)
    requires forall k :: attempts <= k && (k as real) < maxAttempts ==> outcome(k).KeepPolling?
    ensures PollFrom(outcome, maxAttempts, attempts, lastReported).result == Err(TimedOut)
    decreases JsMath.Ceil(maxAttempts) - attempts
  {
    if (attempts as real) < maxAttempts {
      var a := attempts + 1;
      var progress := ProgressAt(a, maxAttempts);
      AllPendingTimesOut(outcome, maxAttempts, a, NextLast(progress, lastReported));
    }
  }

  /** What `pollApiTaskStatus` promises, for the replies it gets: progress
      reports strictly increase within (0, 0.99] except a final 1 on
      success, at most `ceil(maxAttempts)` requests (30 with the defaults),
      and success exactly when a request completes before any fatal one. */
  lemma PollGuarantees(replies: nat -> TaskReply, maxAttempts: real)
    ensures var run := Poll(replies, maxAttempts);
            && (forall i, j :: 0 <= i < j < |run.reports| ==> run.reports[i] < run.reports[j])
            && Bounded(run.reports, 0.0)
            && (maxAttempts > 0.0 ==> 1 <= run.queries <= JsMath.Ceil(maxAttempts))
            && (maxAttempts <= 0.0 ==> run == PollRun(Err(TimedOut), [], 0))
            && (run.result.Ok? ==>
                  && run.reports[|run.reports| - 1] == 1.0
                  && run.result.value.durationSeconds == DefaultDuration
                  && Attempt(replies(run.queries - 1), run.queries, maxAttempts) == Completed(run.result.value.videoUrl))
  {
    var o := Outcomes(replies, maxAttempts);
    ReportsIncrease(o, maxAttempts, 0, 0.0);
    ReportsBounded(o, maxAttempts, 0, 0.0);
    SuccessReportsOne(o, maxAttempts, 0, 0.0);
    SuccessIsFirstCompletion(o, maxAttempts, 0, 0.0);
    if maxAttempts > 0.0 {
      QueriesBounded(o, maxAttempts, 0, 0.0);
    }
  }

  /** A server error is retried before the last attempt and fatal on it. */
  lemma ServerErrorRetriedUntilLast(status: int, body: string, statusText: string, attempts: nat, maxAttempts: real)
    requires status >= 500
    ensures (attempts as real) < maxAttempts ==> Attempt(TaskNotOk(status, body, statusText), attempts, maxAttempts) == KeepPolling
    ensures (attempts as real) >= maxAttempts ==> Attempt(TaskNotOk(status, body, statusText), attempts, maxAttempts).Fatal?
  {
  }

  // ---------------------------------------------------------------- single query

  datatype TaskStatusResult = TaskStatusResult(success: bool, state: Option<TaskState>, videoUrl: Option<string>,
                                               error: Option<string>, durationSeconds: Option<real>)

  /** `queryTaskStatus`: never throws; failures come back as `success: false`. */
  function QueryTaskStatus(apiKey: string, reply: TaskReply): (r: TaskStatusResult)
    ensures !r.success <==> apiKey == "" || reply.TaskThrown? || reply.TaskNotOk?
    ensures r.videoUrl.Some? <==> r.success && reply.TaskParsed? && reply.state == Success && |reply.creationUrls| > 0
    ensures r.videoUrl.Some? ==> r.videoUrl.value == reply.creationUrls[0] && r.durationSeconds == Some(DefaultDuration)
    ensures r.success ==> r.error.None? && r.state == Some(reply.state)
    ensures !r.success ==> r.error.Some? && r.error.value != ""
  {
    var config := CheckApiConfiguration(apiKey);
    if config.Some? then TaskStatusResult(false, None, None, Some(config.value), None)
    else
      match reply
      case TaskThrown(m) => TaskStatusResult(false, None, None, Some(if m != "" then m else "GENERIC_ERROR"), None)
      case TaskNotOk(status, body, statusText) =>
        TaskStatusResult(false, None, None,
                         Some(ApiError(status, body, statusText)),
                         None)
      case TaskParsed(state, _, urls) =>
        if state == Success && |urls| > 0 then TaskStatusResult(true, Some(state), Some(urls[0]), None, Some(DefaultDuration))
        else TaskStatusResult(true, Some(state), None, None, None)
  }
}
