/** The sequential narrative orchestrator (`generateNarrativeVideo` of
    `NarrativeVideoGenerator`): five clips of the theme generated one after
    the other from the original image, any failure ending the run, then the
    clips stitched in order. The network check, the Vidu calls and the
    stitcher are the collaborators in `Services`. */
module NarrativeGenerator {
  import opened Wrappers
  import Strings
  import JsMath
  import Progress
  import Themes
  import ViduApi
  import VideoStitcher

  /** What `createApiTask` is called with. The prompt is held as the
      catalogue clip and the clip number it is varied for; its text is
      `prompt()`. */
  datatype TaskRequest = TaskRequest(promptId: Themes.PromptId, clipNumber: int, imageUri: string,
                                     referenceImageIds: seq<string>) {
    function prompt(): string {
      Themes.AddPromptVariation(Themes.PromptText(promptId), clipNumber)
    }
  }

  /** The collaborators: whether the network check passes, the Vidu key,
      the generation task id (or error) each request gets, the run of the polling loop
      for each task id, and the stitcher's answer for each clip list. */
  datatype Services = Services(
    networkOk: bool,
    apiKey: string,
    createTask: TaskRequest -> Result<string>,
    pollTask: string -> ViduApi.PollRun,
    stitch: (seq<VideoStitcher.ClipInput>, VideoStitcher.VideoResolution) -> Result<string>)

  datatype NarrativeGenerationResult = NarrativeGenerationResult(
    success: bool,
    videoUrls: seq<string>,
    stitchedVideoUri: Option<string>,
    error: Option<string>)

  /** `error.message || ERROR_MESSAGES.GENERIC_ERROR` */
  function ErrorText(message: string): (m: string)
    ensures m != ""
  {
    if message != "" then message else "GENERIC_ERROR"
  }

  /** The collaborators' answers, as heap-independent functions. */
  function TaskIdFor(svc: Services, request: TaskRequest): Result<string> {
    svc.createTask(request)
  }

  function RunFor(svc: Services, taskId: string): ViduApi.PollRun {
    svc.pollTask(taskId)
  }

  function StitchedFor(svc: Services, clips: seq<VideoStitcher.ClipInput>): Result<string> {
    svc.stitch(clips, VideoStitcher.Hd)
  }

  /** The request for clip number `n` (from 1): the varied prompt, the
      ORIGINAL image and the clip's own reference ids. */
  function RequestFor(clip: Themes.NarrativeClip, n: int, imageUri: string): TaskRequest {
    TaskRequest(clip.promptId, n, imageUri, clip.referenceImageIds)
  }

  /** The request sends the clip's prompt, varied for its number, with the
      image it was given. */
  lemma RequestSendsClipPrompt(clip: Themes.NarrativeClip, n: int, imageUri: string)
    ensures RequestFor(clip, n, imageUri).prompt() == Themes.AddPromptVariation(clip.prompt(), n)
    ensures Strings.StartsWith(RequestFor(clip, n, imageUri).prompt(), clip.prompt())
    ensures RequestFor(clip, n, imageUri).imageUri == imageUri
  {
  }

  /** One clip: create the generation task, poll it, insist on a URL. */
  function ClipOutcome(svc: Services, clip: Themes.NarrativeClip, n: int, imageUri: string)
    : (r: Result<VideoStitcher.ClipInput>)
    ensures r.Ok? ==> svc.createTask(RequestFor(clip, n, imageUri)).Ok?
                      && svc.pollTask(svc.createTask(RequestFor(clip, n, imageUri)).value).result
                         == Ok(ViduApi.ViduTaskCompletionResult(r.value.uri, r.value.duration))
                      && r.value.uri != ""
  {
    var task := svc.createTask(RequestFor(clip, n, imageUri));
    if task.Err? then Err(task.error)
    else
      var run := svc.pollTask(task.value);
      if run.result.Err? then Err(run.result.error)
      else if run.result.value.videoUrl == "" then
        Err("Clip " + Strings.NatToString(if n >= 0 then n else 0) + " generation failed or did not return URL.")
      else Ok(VideoStitcher.ClipInput(run.result.value.videoUrl, run.result.value.durationSeconds))
  }

  /** The first failure among `outcomes`, or all their values in order. */
  function Collect<T>(outcomes: seq<Result<T>>): Result<seq<T>> {
    if outcomes == [] then Ok([])
    else
      var earlier := Collect(outcomes[..|outcomes| - 1]);
      if earlier.Err? then earlier
      else
        match outcomes[|outcomes| - 1]
        case Err(e) => Err(e)
        case Ok(v) => Ok(earlier.value + [v])
  }

  /** Collecting succeeds exactly when every outcome does, and then gives
      their values one for one, in order. */
  lemma {:induction false} CollectOk<T>(outcomes: seq<Result<T>>)
    ensures Collect(outcomes).Ok? <==> forall i :: 0 <= i < |outcomes| ==> outcomes[i].Ok?
    ensures Collect(outcomes).Ok? ==>
              |Collect(outcomes).value| == |outcomes|
              && forall i :: 0 <= i < |outcomes| ==> outcomes[i] == Ok(Collect(outcomes).value[i])
  {
    if outcomes != [] {
      var init := outcomes[..|outcomes| - 1];
      CollectOk(init);
      assert forall i :: 0 <= i < |init| ==> init[i] == outcomes[i];
    }
  }

  /** The first failing outcome is the error, whatever comes after it. */
  lemma {:induction false} CollectFirstError<T>(outcomes: seq<Result<T>>, i: nat)
    requires i < |outcomes| && Collect(outcomes[..i]).Ok? && outcomes[i].Err?
    ensures Collect(outcomes) == Err(outcomes[i].error)
  {
    if i < |outcomes| - 1 {
      var init := outcomes[..|outcomes| - 1];
      assert init[..i] == outcomes[..i];
      CollectFirstError(init, i);
    } else {
      assert outcomes[..|outcomes| - 1] == outcomes[..i];
    }
  }

  /** A failing outcome anywhere makes the collection fail. */
  lemma {:induction false} CollectErr<T>(outcomes: seq<Result<T>>, i: nat)
    requires i < |outcomes| && outcomes[i].Err?
    ensures Collect(outcomes).Err?
  {
    if i < |outcomes| - 1 {
      var init := outcomes[..|outcomes| - 1];
      assert init[i] == outcomes[i];
      CollectErr(init, i);
    }
  }

  /** One more successful outcome extends the collected prefix by its value. */
  lemma CollectStep<T>(outcomes: seq<Result<T>>, i: nat, values: seq<T>)
    requires i < |outcomes| && Collect(outcomes[..i]) == Ok(values) && outcomes[i].Ok?
    ensures Collect(outcomes[..i + 1]) == Ok(values + [outcomes[i].value])
  {
    assert outcomes[..i + 1][..i] == outcomes[..i];
  }

  /** Each catalogue clip's outcome, clip `i` numbered `i + 1`. */
  function ClipOutcomes(svc: Services, clips: seq<Themes.NarrativeClip>, imageUri: string)
    : (rs: seq<Result<VideoStitcher.ClipInput>>)
    ensures |rs| == |clips|
  {
    seq(|clips|, i requires 0 <= i < |clips| => ClipOutcome(svc, clips[i], i + 1, imageUri))
  }

  /** The run once the theme's clips are known: the network and key
      checks, the clips in order, then the stitcher. */
  function RunOutcome(svc: Services, clips: seq<Themes.NarrativeClip>, imageUri: string)
    : Result<(seq<VideoStitcher.ClipInput>, string)>
  {
    if !svc.networkOk then Err("NETWORK_CONNECTION_ERROR")
    else if ViduApi.CheckApiConfiguration(svc.apiKey).Some? then Err(ViduApi.CheckApiConfiguration(svc.apiKey).value)
    else StitchOutcome(svc, Collect(ClipOutcomes(svc, clips, imageUri)))
  }

  /** After the checks: the first clip failure, or the stitcher's answer for
      all the clips. */
  function StitchOutcome(svc: Services, generated: Result<seq<VideoStitcher.ClipInput>>)
    : Result<(seq<VideoStitcher.ClipInput>, string)>
  {
    if generated.Err? then Err(generated.error)
    else
      var stitched := StitchedFor(svc, generated.value);
      if stitched.Err? then Err(stitched.error)
      else if stitched.value == "" then Err("Video stitching failed to return a URL.")
      else Ok((generated.value, stitched.value))
  }

  /** The whole run: the generated clips and the stitched URL, or the error. */
  function Outcome(svc: Services, themeId: string, imageUri: string)
    : Result<(seq<VideoStitcher.ClipInput>, string)>
  {
    var clips := Themes.GetNarrativeClips(themeId);
    if clips.Err? then Err(clips.error) else RunOutcome(svc, clips.value, imageUri)
  }

  function Uris(clips: seq<VideoStitcher.ClipInput>): (uris: seq<string>)
    ensures |uris| == |clips| && forall i :: 0 <= i < |clips| ==> uris[i] == clips[i].uri
  {
    seq(|clips|, i requires 0 <= i < |clips| => clips[i].uri)
  }

  /** The result the run returns. */
  function ResultOf(outcome: Result<(seq<VideoStitcher.ClipInput>, string)>): (r: NarrativeGenerationResult)
    ensures r.success <==> outcome.Ok?
    ensures r.success ==> r.videoUrls == Uris(outcome.value.0) && r.stitchedVideoUri == Some(outcome.value.1)
    ensures !r.success ==> r.error == Some(ErrorText(outcome.error))
  {
    match outcome
    case Ok((generated, uri)) => NarrativeGenerationResult(true, Uris(generated), Some(uri), None)
    case Err(m) => NarrativeGenerationResult(false, [], None, Some(ErrorText(m)))
  }

  /** A successful run generated every clip of the theme in order and
      stitched exactly those clips at 'hd'. */
  lemma SuccessMeansEveryClip(svc: Services, themeId: string, imageUri: string)
    requires Outcome(svc, themeId, imageUri).Ok?
    ensures var clips := Themes.GetNarrativeClips(themeId).value;
            var generated := Outcome(svc, themeId, imageUri).value.0;
            && |generated| == |clips| == 5
            && (forall i :: 0 <= i < 5 ==> ClipOutcome(svc, clips[i], i + 1, imageUri) == Ok(generated[i]))
            && svc.stitch(generated, VideoStitcher.Hd) == Ok(Outcome(svc, themeId, imageUri).value.1)
  {
    RunSuccessMeansEveryClip(svc, Themes.GetNarrativeClips(themeId).value, imageUri);
  }

  /** The same, once the theme's clips are known. */
  lemma RunSuccessMeansEveryClip(svc: Services, clips: seq<Themes.NarrativeClip>, imageUri: string)
    requires RunOutcome(svc, clips, imageUri).Ok?
    ensures var generated := RunOutcome(svc, clips, imageUri).value.0;
            && |generated| == |clips|
            && (forall i :: 0 <= i < |clips| ==> ClipOutcome(svc, clips[i], i + 1, imageUri) == Ok(generated[i]))
            && svc.stitch(generated, VideoStitcher.Hd) == Ok(RunOutcome(svc, clips, imageUri).value.1)
  {
    CollectOk(ClipOutcomes(svc, clips, imageUri));
  }

  /** An unknown theme fails with INVALID_THEME whatever the network and the key. */
  lemma InvalidThemeFailsFirst(svc: Services, themeId: string, imageUri: string)
    requires Themes.GetNarrativeClips(themeId).Err?
    ensures Outcome(svc, themeId, imageUri) == Err(Themes.InvalidTheme)
  {
  }

  /** A failing clip fails the whole run, whatever the other clips do. */
  lemma AnyClipFailureFailsRun(svc: Services, themeId: string, imageUri: string, i: nat)
    requires Themes.GetNarrativeClips(themeId).Ok? && i < 5
    requires ClipOutcome(svc, Themes.GetNarrativeClips(themeId).value[i], i + 1, imageUri).Err?
    ensures Outcome(svc, themeId, imageUri).Err?
  {
    ClipFailureFailsRunOutcome(svc, Themes.GetNarrativeClips(themeId).value, imageUri, i);
  }

  /** The same, once the theme's clips are known. */
  lemma ClipFailureFailsRunOutcome(svc: Services, clips: seq<Themes.NarrativeClip>, imageUri: string, i: nat)
    requires i < |clips| && ClipOutcome(svc, clips[i], i + 1, imageUri).Err?
    ensures RunOutcome(svc, clips, imageUri).Err?
  {
    ClipOutcomeAt(svc, clips, imageUri, i);
    CollectErr(ClipOutcomes(svc, clips, imageUri), i);
    FailedCollectFailsRun(svc, clips, imageUri);
  }

  lemma ClipOutcomeAt(svc: Services, clips: seq<Themes.NarrativeClip>, imageUri: string, i: nat)
    requires i < |clips|
    ensures ClipOutcomes(svc, clips, imageUri)[i] == ClipOutcome(svc, clips[i], i + 1, imageUri)
  {
  }

  /** A failed clip loop fails the run. */
  lemma FailedCollectFailsRun(svc: Services, clips: seq<Themes.NarrativeClip>, imageUri: string)
    requires Collect(ClipOutcomes(svc, clips, imageUri)).Err?
    ensures RunOutcome(svc, clips, imageUri).Err?
  {
  }

  /** The message of a poll report. */
  function PollMessage(n: int, p: real): (m: string)
    ensures m != ""
  {
    "Clip " + Strings.IntToString(n) + " progress: " + Strings.IntToString(JsMath.Round(p * 100.0)) + "%"
  }

  /** The event a poll report `p` of clip `n` of `total` produces. */
  function PollEvent(n: int, total: real, p: real): Progress.GenerationProgress {
    Progress.GenerationProgress(Progress.Generating, Some(n as real), Some(total),
                                Progress.UpdatedProgress(Progress.Generating, Some(n as real), Some(total), Some(0.3 + p * 0.6), 0.0),
                                PollMessage(n, p))
  }

  /** The events of a sequence of poll reports, in order. */
  function PollEvents(n: int, total: real, reports: seq<real>): (events: seq<Progress.GenerationProgress>)
    ensures |events| == |reports|
    ensures forall i :: 0 <= i < |reports| ==> events[i] == PollEvent(n, total, reports[i])
  {
    if reports == [] then [] else PollEvents(n, total, reports[..|reports| - 1]) + [PollEvent(n, total, reports[|reports| - 1])]
  }

  /** A poll report p is placed at 0.3 + 0.6 p within the clip: between the
      'task created' mark and the 'clip complete' mark. */
  lemma PollEventWithinClip(n: real, p: real)
    requires 1.0 <= n <= 5.0 && n.Floor as real == n && 0.0 <= p <= 1.0
    ensures Progress.UpdatedProgress(Progress.Generating, Some(n), Some(5.0), Some(0.3), 0.0)
            <= PollEvent(n.Floor, 5.0, p).overallProgress
            <= Progress.UpdatedProgress(Progress.Generating, Some(n), Some(5.0), Some(1.0), 0.0)
  {
    Progress.GeneratingMonotoneInStageProgress(n, 5.0, 0.3, 0.3 + p * 0.6, 0.0);
    Progress.GeneratingMonotoneInStageProgress(n, 5.0, 0.3 + p * 0.6, 1.0, 0.0);
  }

  lemma PollEventsExtend(n: int, total: real, reports: seq<real>, i: nat)
    requires i < |reports|
    ensures PollEvents(n, total, reports[..i + 1]) == PollEvents(n, total, reports[..i]) + [PollEvent(n, total, reports[i])]
  {
    assert reports[..i + 1][..i] == reports[..i];
  }

  lemma AppendAssociates<T>(a: seq<T>, b: seq<T>, c: seq<T>)
    ensures (a + b) + c == a + (b + c)
  {
  }

  /** The `onProgress` callback of the polling loop, once per report. */
  method ReportPollProgress(tracker: Progress.NarrativeProgressTracker, n: int, total: real, reports: seq<real>)
    requires tracker.Valid()
    modifies tracker
    ensures tracker.Valid()
    ensures tracker.emitted == old(tracker.emitted) + PollEvents(n, total, reports)
  {
    for i := 0 to |reports|
      invariant tracker.Valid()
      invariant tracker.emitted == old(tracker.emitted) + PollEvents(n, total, reports[..i])
    {
      ghost var earlier := PollEvents(n, total, reports[..i]);
      ReportOnePoll(tracker, n, total, reports[i]);
      PollEventsExtend(n, total, reports, i);
      AppendAssociates(old(tracker.emitted), earlier, [PollEvent(n, total, reports[i])]);
    }
    assert reports[..|reports|] == reports;
  }

  /** One call of the callback: the event of report `p`. */
  method ReportOnePoll(tracker: Progress.NarrativeProgressTracker, n: int, total: real, p: real)
    requires tracker.Valid()
    modifies tracker
    ensures tracker.Valid()
    ensures tracker.emitted == old(tracker.emitted) + [PollEvent(n, total, p)]
  {
    Progress.GeneratingIgnoresHeld(Some(n as real), Some(total), Some(0.3 + p * 0.6), tracker.currentProgress);
    tracker.Update(Progress.Generating, Some(n as real), Some(total), Some(PollMessage(n, p)), Some(0.3 + p * 0.6));
  }

  /** The `catch` block: one 'error' event at the held value, then the failure. */
  method Abort(tracker: Progress.NarrativeProgressTracker, total: real, message: string)
    returns (result: NarrativeGenerationResult)
    requires tracker.Valid()
    modifies tracker
    ensures tracker.Valid()
    ensures tracker.currentProgress == old(tracker.currentProgress)
    ensures tracker.emitted == old(tracker.emitted)
                               + [Progress.GenerationProgress(Progress.Error, None, Some(total),
                                                              old(tracker.currentProgress), ErrorText(message))]
    ensures result == NarrativeGenerationResult(false, [], None, Some(ErrorText(message)))
  {
    var errorMessage := ErrorText(message);
    tracker.Update(Progress.Error, None, Some(total), Some(errorMessage), Some(1.0));
    result := NarrativeGenerationResult(false, [], None, Some(errorMessage));
  }

  /** The first 40 characters of the prompt (`substring(0, 40)`). */
  function Head40(s: string): string {
    s[..if |s| < 40 then |s| else 40]
  }

  /** One pass of the clip loop (clip number `i + 1`): its progress events,
      the generation request, and the clip or the error that aborts the run. */
  method GenerateClip(tracker: Progress.NarrativeProgressTracker, svc: Services, clips: seq<Themes.NarrativeClip>,
                      i: nat, imageUri: string)
    returns (clip: Result<VideoStitcher.ClipInput>, request: TaskRequest)
    requires i < |clips| && tracker.Valid()
    modifies tracker
    ensures tracker.Valid() && |tracker.emitted| > |old(tracker.emitted)|
    ensures request == RequestFor(clips[i], i + 1, imageUri)
    ensures clip == ClipOutcome(svc, clips[i], i + 1, imageUri)
  {
    var currentTotalClips := |clips| as real;
    var currentClipNumber := i + 1;
    var currentClip := clips[i];
    var prompt := Themes.AddPromptVariation(currentClip.prompt(), currentClipNumber);
    if i > 0 {
      tracker.Update(Progress.Generating, Some((currentClipNumber - 1) as real), Some(currentTotalClips),
                     Some("Preparing next clip (avoiding rate limits)..."), Some(1.0));
    }
    tracker.Update(Progress.Generating, Some(currentClipNumber as real), Some(currentTotalClips),
                   Some("Preparing clip " + Strings.NatToString(currentClipNumber) + ": " + Head40(prompt) + "..."),
                   Some(0.1));
    request := TaskRequest(currentClip.promptId, currentClipNumber, imageUri, currentClip.referenceImageIds);
    var taskId := TaskIdFor(svc, request);
    if taskId.Err? {
      return Err(taskId.error), request;
    }
    tracker.Update(Progress.Generating, Some(currentClipNumber as real), Some(currentTotalClips),
                   Some("Task " + taskId.value + " created. Generating clip " + Strings.NatToString(currentClipNumber) + "..."),
                   Some(0.3));
    var run := RunFor(svc, taskId.value);
    ReportPollProgress(tracker, currentClipNumber, currentTotalClips, run.reports);
    if run.result.Err? {
      return Err(run.result.error), request;
    }
    var videoUrl := run.result.value.videoUrl;
    if videoUrl == "" {
      return Err("Clip " + Strings.NatToString(currentClipNumber) + " generation failed or did not return URL."), request;
    }
    clip := Ok(VideoStitcher.ClipInput(videoUrl, run.result.value.durationSeconds));
    tracker.Update(Progress.Generating, Some(currentClipNumber as real), Some(currentTotalClips),
                   Some("Clip " + Strings.NatToString(currentClipNumber) + " complete."), Some(1.0));
  }

  /** The clip loop: generates the clips in order and stops at the first
      failure. `attempted` is the number of clips whose task was requested
      (clip `k` with the request `RequestFor(clips[k - 1], k, imageUri)`,
      as `GenerateClip` states): none after a failing clip. */
  method GenerateClips(tracker: Progress.NarrativeProgressTracker, svc: Services, clips: seq<Themes.NarrativeClip>,
                       imageUri: string)
    returns (generated: Result<seq<VideoStitcher.ClipInput>>, attempted: nat)
    requires tracker.Valid()
    modifies tracker
    ensures tracker.Valid() && tracker.emitted != []
    ensures generated == Collect(ClipOutcomes(svc, clips, imageUri))
    ensures attempted <= |clips|
    ensures generated.Ok? ==> attempted == |clips|
    ensures generated.Err? ==>
              attempted >= 1
              && Collect(ClipOutcomes(svc, clips, imageUri)[..attempted - 1]).Ok?
              && ClipOutcomes(svc, clips, imageUri)[attempted - 1].Err?
  {
    tracker.Update(Progress.Generating, Some(0.0), Some(|clips| as real),
                   Some("Starting generation of " + Strings.NatToString(|clips|) + " clip story..."), Some(0.0));
    ghost var outcomes := ClipOutcomes(svc, clips, imageUri);
    var generatedClips: seq<VideoStitcher.ClipInput> := [];
    attempted := 0;
    for i := 0 to |clips|
      invariant tracker.Valid() && tracker.emitted != []
      invariant Collect(outcomes[..i]) == Ok(generatedClips)
      invariant attempted == i
    {
      var clip, _ := GenerateClip(tracker, svc, clips, i, imageUri);
      assert clip == outcomes[i];
      attempted := attempted + 1;
      if clip.Err? {
        CollectFirstError(outcomes, i);
        return Err(clip.error), attempted;
      }
      CollectStep(outcomes, i, generatedClips);
      generatedClips := generatedClips + [clip.value];
    }
    assert outcomes[..|clips|] == outcomes;
    generated := Ok(generatedClips);
  }

  /** The stitching steps once every clip exists. */
  method StitchAll(tracker: Progress.NarrativeProgressTracker, svc: Services, themeId: string,
                   totalClips: nat, generatedClips: seq<VideoStitcher.ClipInput>)
    returns (stitched: Result<string>)
    requires tracker.Valid()
    modifies tracker
    ensures tracker.Valid() && |tracker.emitted| > |old(tracker.emitted)|
    ensures var s := svc.stitch(generatedClips, VideoStitcher.Hd);
            stitched == if s.Ok? && s.value == "" then Err("Video stitching failed to return a URL.") else s
    ensures stitched.Ok? ==> tracker.emitted[|tracker.emitted| - 1].stage == Progress.Complete
                             && tracker.emitted[|tracker.emitted| - 1].overallProgress == 1.0
  {
    var total := totalClips as real;
    tracker.Update(Progress.Stitching, None, Some(total),
                   Some("All " + Strings.NatToString(totalClips) + " clips generated. Creating your narrative video..."),
                   Some(0.1));
    stitched := StitchedFor(svc, generatedClips);
    if stitched.Err? {
      return;
    }
    if stitched.value == "" {
      return Err("Video stitching failed to return a URL.");
    }
    tracker.Update(Progress.Stitching, None, Some(total), Some("Stitching complete."), Some(1.0));
    tracker.Update(Progress.Complete, None, Some(total), Some("Your " + themeId + " adventure is ready!"), Some(1.0));
  }

  /** The body of the `try` block after the theme lookup, on a fresh tracker. */
  method RunNarrative(tracker: Progress.NarrativeProgressTracker, svc: Services, themeId: string,
                      clips: seq<Themes.NarrativeClip>, imageUri: string)
    returns (result: NarrativeGenerationResult, attempted: nat, stitched: Option<seq<VideoStitcher.ClipInput>>)
    requires tracker.Valid() && tracker.emitted == []
    modifies tracker
    ensures tracker.Valid()
    ensures result == ResultOf(RunOutcome(svc, clips, imageUri))
    ensures attempted <= |clips| && (!svc.networkOk ==> attempted == 0)
    ensures result.success ==> attempted == |clips| && stitched == Some(RunOutcome(svc, clips, imageUri).value.0)
    ensures var events := tracker.emitted;
            && |events| >= 2
            && (result.success ==> events[|events| - 1].stage == Progress.Complete
                                   && events[|events| - 1].overallProgress == 1.0)
            && (!result.success ==> events[|events| - 1].stage == Progress.Error
                                    && events[|events| - 1].overallProgress == events[|events| - 2].overallProgress)
  {
    attempted, stitched := 0, None;
    var currentTotalClips := |clips| as real;
    tracker.Update(Progress.Initializing, None, Some(currentTotalClips), Some("Checking setup..."), Some(0.1));
    if !svc.networkOk {
      result := Abort(tracker, currentTotalClips, "NETWORK_CONNECTION_ERROR");
      return;
    }
    var config := ViduApi.CheckApiConfiguration(svc.apiKey);
    if config.Some? {
      result := Abort(tracker, currentTotalClips, config.value);
      return;
    }
    tracker.Update(Progress.Initializing, None, Some(currentTotalClips), Some("Setup complete."), Some(1.0));
    result, attempted, stitched := GenerateAndStitch(tracker, svc, themeId, clips, imageUri);
  }

  /** The clip loop, then the stitcher, once the checks have passed. */
  method GenerateAndStitch(tracker: Progress.NarrativeProgressTracker, svc: Services, themeId: string,
                           clips: seq<Themes.NarrativeClip>, imageUri: string)
    returns (result: NarrativeGenerationResult, attempted: nat, stitched: Option<seq<VideoStitcher.ClipInput>>)
    requires tracker.Valid()
    modifies tracker
    ensures tracker.Valid()
    ensures result == ResultOf(StitchOutcome(svc, Collect(ClipOutcomes(svc, clips, imageUri))))
    ensures attempted <= |clips|
    ensures result.success ==> attempted == |clips|
                               && stitched == Some(Collect(ClipOutcomes(svc, clips, imageUri)).value)
    ensures var events := tracker.emitted;
            && |events| >= 2
            && (result.success ==> events[|events| - 1].stage == Progress.Complete
                                   && events[|events| - 1].overallProgress == 1.0)
            && (!result.success ==> events[|events| - 1].stage == Progress.Error
                                    && events[|events| - 1].overallProgress == events[|events| - 2].overallProgress)
  {
    stitched := None;
    var currentTotalClips := |clips| as real;
    var generated;
    generated, attempted := GenerateClips(tracker, svc, clips, imageUri);
    if generated.Err? {
      result := Abort(tracker, currentTotalClips, generated.error);
      return;
    }
    var generatedClips := generated.value;
    stitched := Some(generatedClips);
    var finalStitchedUri := StitchAll(tracker, svc, themeId, |clips|, generatedClips);
    if finalStitchedUri.Err? {
      result := Abort(tracker, currentTotalClips, finalStitchedUri.error);
      return;
    }
    result := NarrativeGenerationResult(true, Uris(generatedClips), Some(finalStitchedUri.value), None);
  }

  /** `generateNarrativeVideo`. `events` are the records passed to
      `onProgress`, `attempted` the number of `createApiTask` calls (in clip
      order, see `GenerateClips`), `stitched` the clip list handed to the
      stitcher. */
  method GenerateNarrativeVideo(imageUri: string, themeId: string, svc: Services)
    returns (result: NarrativeGenerationResult, events: seq<Progress.GenerationProgress>,
             attempted: nat, stitched: Option<seq<VideoStitcher.ClipInput>>)
    ensures result == ResultOf(Outcome(svc, themeId, imageUri))
    ensures Themes.GetNarrativeClips(themeId).Err? ==>
              attempted == 0 && stitched.None?
              && events == [Progress.GenerationProgress(Progress.Error, None, Some(0.0), 0.0, Themes.InvalidTheme)]
    ensures attempted <= 5 && (!svc.networkOk ==> attempted == 0)
    ensures result.success ==> attempted == 5 && stitched == Some(Outcome(svc, themeId, imageUri).value.0)
    ensures |events| >= 1
    ensures result.success ==> events[|events| - 1].stage == Progress.Complete && events[|events| - 1].overallProgress == 1.0
    ensures !result.success ==>
              && events[|events| - 1].stage == Progress.Error
              && events[|events| - 1].overallProgress == (if |events| >= 2 then events[|events| - 2].overallProgress else 0.0)
  {
    var tracker := new Progress.NarrativeProgressTracker();
    var narrativeClips := Themes.GetNarrativeClips(themeId);
    if narrativeClips.Err? {
      attempted, stitched := 0, None;
      result := Abort(tracker, 0.0, narrativeClips.error);
      events := tracker.emitted;
      return;
    }
    result, attempted, stitched := RunNarrative(tracker, svc, themeId, narrativeClips.value, imageUri);
    events := tracker.emitted;
  }
}
