/** The MiniMax video service (`VideoService.ts`): its own prompt tables,
    the create / poll / retrieve calls against the generation API, the
    single-video flow with its result cache, and the narrative flow that
    checks the budget, counts progress in steps and tolerates failing clips.
    Every remote answer is an oracle value; the clock of the polling loop is
    an input. */
module VideoService {
  import opened Wrappers
  import Strings
  import JsMath
  import CostTracker
  import Cache
  import VideoStitcher
  import NarrativeGenerator
  import FrameExtractor

  const PollingIntervalMs: real := 10000.0
  const MaxPollingTimeMs: real := 300000.0
  const EstimatedVideoDurationSeconds: real := 10.0
  const SubjectPlaceholder: string := "[SUBJECT_DESCRIPTION]"
  const SubjectDescription: string := "pet"

  /** The `ERROR_MESSAGES` entries, by key. */
  const NetworkConnectionError: string := "NETWORK_CONNECTION_ERROR"
  const ApiConfigError: string := "API_CONFIG_ERROR"
  const InvalidTheme: string := "INVALID_THEME"
  const ImageLoadError: string := "IMAGE_LOAD_ERROR"
  const ApiRequestFailed: string := "API_REQUEST_FAILED"
  const ApiTimeout: string := "API_TIMEOUT"
  const VideoGenerationFailed: string := "VIDEO_GENERATION_FAILED"
  const BudgetExceeded: string := "BUDGET_EXCEEDED"

  /** Every text of `ERROR_MESSAGES`. */
  function KnownErrorMessages(): set<string> {
    {"CAMERA_PERMISSION_DENIED", "MEDIA_LIBRARY_PERMISSION_DENIED", "IMAGE_PICKER_CANCELLED",
     "FILE_UPLOAD_ERROR", "IMAGE_LOAD_ERROR", "API_REQUEST_FAILED", "API_TIMEOUT",
     "VIDEO_GENERATION_FAILED", "NETWORK_CONNECTION_ERROR", "API_CONFIG_ERROR", "BUDGET_EXCEEDED",
     "BUDGET_CHECK_FAILED", "INVALID_THEME", "VIDEO_PLAYBACK_ERROR", "SHARING_FAILED",
     "SAVE_VIDEO_FAILED", "GENERIC_ERROR"}
  }

  // ---------------------------------------------------------------- themes

  /** The four keys of `THEME_DETAILS` and `NARRATIVE_PROMPTS`. */
  datatype ServiceTheme = FairyTale | CrimeDrama | Romance | SciFi

  function ThemeOf(themeId: string): (t: Option<ServiceTheme>)
    ensures t.Some? <==> themeId in {"fairy-tale", "crime-drama", "romance", "sci-fi"}
  {
    if themeId == "fairy-tale" then Some(FairyTale)
    else if themeId == "crime-drama" then Some(CrimeDrama)
    else if themeId == "romance" then Some(Romance)
    else if themeId == "sci-fi" then Some(SciFi)
    else None
  }

  /** The single-video prompt of `THEME_DETAILS`. */
  function ThemePrompt(theme: ServiceTheme): string {
    match theme
    case FairyTale =>
      "A pixar style animation of a cute animal walking through a fairy tale forest [Pan right], exploring the magical trees [Push in] towards a glowing mushroom."
    case CrimeDrama =>
      "A short, atmospheric crime drama scene in a gritty, noir style. The main subject from the image is central, perhaps investigating a clue or observing something suspiciously under dramatic, shadowy lighting."
    case Romance =>
      "A short, heartwarming romantic moment. The main subject from the image is featured, maybe gazing thoughtfully or receiving a gentle gesture. Soft, warm lighting, cinematic feel."
    case SciFi =>
      "A short, futuristic sci-fi scene. The main subject from the image is present, possibly interacting with advanced technology, on an alien planet, or aboard a starship. Sleek, perhaps slightly mysterious lighting."
  }

  /** `_getThemeDetails`: an id outside the table fails with INVALID_THEME. */
  function GetThemeDetails(themeId: string): (r: Result<string>)
    ensures r.Ok? <==> ThemeOf(themeId).Some?
    ensures r.Ok? ==> r.value == ThemePrompt(ThemeOf(themeId).value)
    ensures r.Err? ==> r.error == InvalidTheme
  {
    match ThemeOf(themeId)
    case None => Err(InvalidTheme)
    case Some(t) => Ok(ThemePrompt(t))
  }

  /** Entry `k` of the theme's list in `NARRATIVE_PROMPTS`. */
  function RawPrompt(theme: ServiceTheme, k: nat): string {
    match theme
    case FairyTale =>
      if k == 0 then "A pixar style animation of a cute [SUBJECT_DESCRIPTION] starting its adventure in a sunny meadow. [Zoom out]"
      else if k == 1 then "The [SUBJECT_DESCRIPTION] cautiously enters a dark, enchanted forest. [Pan right]"
      else if k == 2 then "Suddenly, a friendly gnome appears, offering a glowing mushroom. [Static shot]"
      else if k == 3 then "The [SUBJECT_DESCRIPTION] accepts the mushroom, which lights up the path ahead. [Push in]"
      else "Following the light, the [SUBJECT_DESCRIPTION] discovers a hidden, sparkling waterfall. [Tilt up]"
    case CrimeDrama =>
      if k == 0 then "Film noir style, a lone [SUBJECT_DESCRIPTION] sits under a single streetlamp on a foggy night. [Static shot]"
      else if k == 1 then "The [SUBJECT_DESCRIPTION] notices a mysterious shadow darting into an alleyway. [Quick pan left]"
      else if k == 2 then "Inside the dimly lit alley, the [SUBJECT_DESCRIPTION] finds a dropped fedora hat. [Close up]"
      else if k == 3 then "A car's headlights suddenly pierce the darkness, illuminating the [SUBJECT_DESCRIPTION]. [Dramatic lighting change]"
      else "The [SUBJECT_DESCRIPTION] narrowly avoids the speeding car, vanishing back into the fog. [Whip pan follow]"
    case Romance =>
      if k == 0 then "Soft focus, a gentle [SUBJECT_DESCRIPTION] gazes longingly across a field of flowers at sunset. [Slow zoom in]"
      else if k == 1 then "Another [SUBJECT_DESCRIPTION] approaches, holding a single rose. [Rack focus]"
      else if k == 2 then "The first [SUBJECT_DESCRIPTION] turns, surprised and blushing, as the rose is offered. [Two shot]"
      else if k == 3 then "They touch noses gently, bathed in the warm glow of the setting sun. [Close up]"
      else "The camera pulls back, showing the two silhouettes against the romantic sunset sky. [Crane shot up]"
    case SciFi =>
      if k == 0 then "A sleek [SUBJECT_DESCRIPTION] stands on the bridge of a starship, looking out at nebulae. [Wide shot]"
      else if k == 1 then "Red alert lights flash as an alien vessel appears on the viewscreen. [Flashing lights, quick cuts]"
      else if k == 2 then "The [SUBJECT_DESCRIPTION] calmly issues commands into a holographic interface. [Over the shoulder shot]"
      else if k == 3 then "The starship fires bright energy beams at the alien ship. [Exterior shot, VFX]"
      else "The alien vessel explodes, and the [SUBJECT_DESCRIPTION] turns with a determined look. [Hero shot push in]"
  }

  /** The theme's list in `NARRATIVE_PROMPTS`: five entries each. */
  function RawPrompts(theme: ServiceTheme): (ps: seq<string>)
    ensures |ps| == 5
  {
    seq(5, k requires 0 <= k < 5 => RawPrompt(theme, k))
  }

  /** `p.replace('[SUBJECT_DESCRIPTION]', 'pet')` */
  function WithSubject(p: string): string {
    Strings.ReplaceFirst(p, SubjectPlaceholder, SubjectDescription)
  }

  /** `_getNarrativePrompts` */
  function GetNarrativePrompts(themeId: string): (r: Result<seq<string>>)
    ensures r.Ok? <==> ThemeOf(themeId).Some?
    ensures r.Err? ==> r.error == InvalidTheme
    ensures r.Ok? ==> |r.value| == 5
                      && forall k :: 0 <= k < 5 ==> r.value[k] == WithSubject(RawPrompt(ThemeOf(themeId).value, k))
  {
    match ThemeOf(themeId)
    case None => Err(InvalidTheme)
    case Some(t) =>
      var prompts := RawPrompts(t);
      if |prompts| != 5 then Err(InvalidTheme)
      else Ok(seq(5, k requires 0 <= k < 5 => WithSubject(prompts[k])))
  }

  /** The superhero theme of the theme catalogue has no list here. */
  lemma SuperheroHasNoNarrativePrompts()
    ensures GetNarrativePrompts("superhero") == Err(InvalidTheme)
    ensures GetThemeDetails("superhero") == Err(InvalidTheme)
  {
  }

  /** Only the first placeholder is replaced: the text before it is kept,
      "pet" takes its place, and everything after it (a second placeholder
      included) is left as it was. A prompt without one is unchanged. */
  lemma WithSubjectReplacesFirstOnly(p: string)
    ensures var i := Strings.IndexOfSub(p, SubjectPlaceholder);
            && (i == -1 ==> WithSubject(p) == p)
            && (i >= 0 ==> i + |SubjectPlaceholder| <= |p|
                           && WithSubject(p) == p[..i] + SubjectDescription + p[i + |SubjectPlaceholder|..]
                           && forall j :: 0 <= j < i ==> !Strings.StartsWith(p[j..], SubjectPlaceholder))
  {
    var i := Strings.IndexOfSub(p, SubjectPlaceholder);
    if i >= 0 {
      assert Strings.StartsWith(p[i..], SubjectPlaceholder);
    }
  }

  // ------------------------------------------------------------- API calls

  /** `_encodeImageAsDataUri`: the read image behind the PNG / JPEG header
      of the cache service; a failed read becomes IMAGE_LOAD_ERROR. */
  function EncodeImageAsDataUri(imageUri: string, base64Read: Result<string>): (r: Result<string>)
    ensures r.Err? <==> base64Read.Err?
    ensures r.Err? ==> r.error == ImageLoadError
    ensures r.Ok? ==> r == Cache.EncodeImageAsDataUri(imageUri, base64Read)
  {
    if base64Read.Err? then Err(ImageLoadError) else Cache.EncodeImageAsDataUri(imageUri, base64Read)
  }

  /** What a call of `fetch` answers: a thrown error, a non-ok status, or
      the parsed body (`base_resp.status_code` absent is `None`). */
  datatype CreateReply =
    | CreateThrown(message: string)
    | CreateNotOk(status: int)
    | CreateParsed(statusCode: Option<int>, taskId: string)

  /** `_createApiTask` after the request: the generation task id, or API_REQUEST_FAILED. */
  function TaskIdFrom(reply: CreateReply): (r: Result<string>)
    ensures r.Ok? <==> reply.CreateParsed? && reply.statusCode == Some(0) && reply.taskId != ""
    ensures r.Ok? ==> r.value == reply.taskId
    ensures reply.CreateThrown? ==> r == Err(reply.message)
    ensures !reply.CreateThrown? && r.Err? ==> r.error == ApiRequestFailed
  {
    match reply
    case CreateThrown(m) => Err(m)
    case CreateNotOk(_) => Err(ApiRequestFailed)
    case CreateParsed(code, id) => if code != Some(0) || id == "" then Err(ApiRequestFailed) else Ok(id)
  }

  datatype RetrieveReply =
    | RetrieveThrown(message: string)
    | RetrieveNotOk(status: int)
    | RetrieveParsed(statusCode: Option<int>, downloadUrl: string)

  /** `_retrieveApiVideoUrl` after the request: a non-empty download URL, or API_REQUEST_FAILED. */
  function DownloadUrlFrom(reply: RetrieveReply): (r: Result<string>)
    ensures r.Ok? <==> reply.RetrieveParsed? && reply.statusCode == Some(0) && reply.downloadUrl != ""
    ensures r.Ok? ==> r.value == reply.downloadUrl && r.value != ""
    ensures reply.RetrieveThrown? ==> r == Err(reply.message)
    ensures !reply.RetrieveThrown? && r.Err? ==> r.error == ApiRequestFailed
  {
    match reply
    case RetrieveThrown(m) => Err(m)
    case RetrieveNotOk(_) => Err(ApiRequestFailed)
    case RetrieveParsed(code, url) => if code != Some(0) || url == "" then Err(ApiRequestFailed) else Ok(url)
  }

  // --------------------------------------------------------------- polling

  datatype QueryReply =
    | QueryThrown(message: string)
    | QueryNotOk(httpStatus: int)
    | QueryParsed(statusCode: Option<int>, status: string, fileId: string)

  /** The polling loop's environment: the reply of attempt `k`, the elapsed
      time (`Date.now() - startTime`) when the loop condition is checked
      before attempt `k`, and the elapsed time read for its progress report. */
  datatype PollScript = PollScript(replies: nat -> QueryReply, checkTimes: nat -> real, reportTimes: nat -> real)

  /** The clock only moves forward, and every attempt that does not return
      sleeps `POLLING_INTERVAL_MS` before the next check: each later check
      comes at least that long after the report of an earlier attempt. */
  ghost predicate ClockAdvances(script: PollScript) {
    && script.checkTimes(0) >= 0.0
    && (forall k: nat :: script.checkTimes(k) <= script.reportTimes(k))
    && (forall j: nat, k: nat :: j < k ==> script.reportTimes(j) + PollingIntervalMs <= script.checkTimes(k))
  }

  lemma {:induction false} ClockLowerBound(script: PollScript, k: nat)
    requires ClockAdvances(script)
    ensures script.checkTimes(k) >= (k as real) * PollingIntervalMs
  {
    if k > 0 {
      ClockLowerBound(script, k - 1);
      assert script.reportTimes(k - 1) + PollingIntervalMs <= script.checkTimes(k);
    }
  }

  /** `0.2 + Math.min(1, elapsed / MAX_POLLING_TIME_MS) * 0.6` */
  function PollProgress(elapsed: real): (p: real)
    ensures elapsed >= 0.0 ==> 0.2 <= p <= 0.8
  {
    0.2 + JsMath.Min(1.0, elapsed / MaxPollingTimeMs) * 0.6
  }

  lemma PollProgressMonotone(e1: real, e2: real)
    requires e1 <= e2
    ensures PollProgress(e1) <= PollProgress(e2)
  {
    assert e1 / MaxPollingTimeMs <= e2 / MaxPollingTimeMs;
  }

  datatype Next = Continue | Done(fileId: string) | Fatal

  /** One pass of the loop body: the progress it reports, if any, and what follows. */
  datatype PollAttempt = PollAttempt(report: Option<real>, next: Next)

  predicate FatalStatus(status: int) {
    status == 400 || status == 401 || status == 403 || status == 404
  }

  /** The loop body on one reply. A thrown error is retried unless it
      carries the VIDEO_GENERATION_FAILED text, which the `catch` re-throws. */
  function AttemptOf(reply: QueryReply, elapsed: real): (a: PollAttempt)
    ensures a.next.Fatal? <==>
              || (reply.QueryThrown? && reply.message == VideoGenerationFailed)
              || (reply.QueryNotOk? && FatalStatus(reply.httpStatus))
              || (reply.QueryParsed? && (reply.statusCode != Some(0) || reply.status == "Fail"
                                         || (reply.status == "Success" && reply.fileId == "")))
    ensures a.next.Done? <==>
              reply.QueryParsed? && reply.statusCode == Some(0) && reply.status == "Success" && reply.fileId != ""
    ensures a.next.Done? ==> a.next.fileId == reply.fileId
    ensures a.report.Some? <==> reply.QueryParsed? && reply.statusCode == Some(0)
    ensures a.report.Some? ==> a.report.value == PollProgress(elapsed)
  {
    match reply
    case QueryThrown(m) => PollAttempt(None, if m == VideoGenerationFailed then Fatal else Continue)
    case QueryNotOk(httpStatus) => PollAttempt(None, if FatalStatus(httpStatus) then Fatal else Continue)
    case QueryParsed(code, status, fileId) =>
      if code != Some(0) then PollAttempt(None, Fatal)
      else
        var report := Some(PollProgress(elapsed));
        if status == "Success" then PollAttempt(report, if fileId == "" then Fatal else Done(fileId))
        else if status == "Fail" then PollAttempt(report, Fatal)
        else PollAttempt(report, Continue)
  }

  /** A run of the loop: its result, the progress it reported, the attempts it
      made. This loop is `_pollApiTaskStatus`, not `pollApiTaskStatus`: its result
      is a URL, its stop is the clock, and each attempt reports its own value
      (`Reported` takes the attempt), so it has its own `PollRun`, `Reported`
      and `Prepended` beside those of `ViduApi`. */
  datatype PollRun = PollRun(result: Result<string>, reports: seq<real>, attempts: nat)

  function Reported(a: PollAttempt): seq<real> {
    if a.report.Some? then [a.report.value] else []
  }

  /** The loop from attempt `k` on. */
  function PollFrom(script: PollScript, k: nat): PollRun
    requires ClockAdvances(script)
    decreases 30 - k
  {
    if script.checkTimes(k) >= MaxPollingTimeMs then PollRun(Err(ApiTimeout), [], k)
    else
      ClockLowerBound(script, k);
      var a := AttemptOf(script.replies(k), script.reportTimes(k));
      match a.next
      case Continue =>
        var rest := PollFrom(script, k + 1);
        PollRun(rest.result, Reported(a) + rest.reports, rest.attempts)
      case Done(fileId) => PollRun(Ok(fileId), Reported(a), k + 1)
      case Fatal => PollRun(Err(VideoGenerationFailed), Reported(a), k + 1)
  }

  lemma {:induction false} PollAttemptsBounded(script: PollScript, k: nat)
    requires ClockAdvances(script)
    ensures k <= PollFrom(script, k).attempts
    ensures k <= 30 ==> PollFrom(script, k).attempts <= 30
    decreases 30 - k
  {
    if script.checkTimes(k) < MaxPollingTimeMs {
      ClockLowerBound(script, k);
      if AttemptOf(script.replies(k), script.reportTimes(k)).next.Continue? {
        PollAttemptsBounded(script, k + 1);
      }
    }
  }

  /** Every report in `rs` is at least `floor` and at most 0.8. */
  predicate InBand(rs: seq<real>, floor: real) {
    forall i :: 0 <= i < |rs| ==> floor <= rs[i] <= 0.8
  }

  predicate NonDecreasing(rs: seq<real>) {
    forall i, j :: 0 <= i < j < |rs| ==> rs[i] <= rs[j]
  }

  /** A report at or below every later one keeps the order when put in front. */
  lemma PrependReport(head: seq<real>, rest: seq<real>, floor: real, restFloor: real)
    requires |head| <= 1 && InBand(head, floor) && InBand(rest, restFloor) && NonDecreasing(rest)
    requires floor <= restFloor && forall i :: 0 <= i < |head| ==> head[i] <= restFloor
    ensures InBand(head + rest, floor) && NonDecreasing(head + rest)
  {
  }

  /** Every report from attempt `k` on lies between the progress at the
      check before attempt `k` and 0.8, in non-decreasing order. */
  lemma {:induction false} PollReportsOrdered(script: PollScript, k: nat)
    requires ClockAdvances(script)
    ensures InBand(PollFrom(script, k).reports, PollProgress(script.checkTimes(k)))
    ensures NonDecreasing(PollFrom(script, k).reports)
    decreases 30 - k
  {
    ClockLowerBound(script, k);
    if script.checkTimes(k) < MaxPollingTimeMs {
      var a := AttemptOf(script.replies(k), script.reportTimes(k));
      var floor := PollProgress(script.checkTimes(k));
      PollProgressMonotone(script.checkTimes(k), script.reportTimes(k));
      assert InBand(Reported(a), floor);
      if a.next.Continue? {
        PollReportsOrdered(script, k + 1);
        PollProgressMonotone(script.reportTimes(k), script.checkTimes(k + 1));
        PrependReport(Reported(a), PollFrom(script, k + 1).reports, floor, PollProgress(script.checkTimes(k + 1)));
      }
    }
  }

  /** The loop's result is the first attempt that does not continue, or
      API_TIMEOUT when the time runs out first. */
  lemma PollResultIsFirstStop(script: PollScript, k: nat)
    requires ClockAdvances(script)
    ensures var run := PollFrom(script, k);
            && (forall j :: k <= j < run.attempts ==>
                  script.checkTimes(j) < MaxPollingTimeMs
                  && (j < run.attempts - 1 || run.result == Err(ApiTimeout) ==>
                        AttemptOf(script.replies(j), script.reportTimes(j)).next.Continue?))
            && (run.result == Err(ApiTimeout) ==> script.checkTimes(run.attempts) >= MaxPollingTimeMs)
            && (run.result.Ok? ==>
                  run.attempts > k
                  && AttemptOf(script.replies(run.attempts - 1), script.reportTimes(run.attempts - 1)).next
                     == Done(run.result.value))
            && (run.result.Err? && run.result != Err(ApiTimeout) ==>
                  run.attempts > k
                  && run.result.error == VideoGenerationFailed
                  && AttemptOf(script.replies(run.attempts - 1), script.reportTimes(run.attempts - 1)).next.Fatal?)
  {
    PollContinuesUntilStop(script, k);
    PollTimesOutAtWindowEnd(script, k);
    PollDoneAtLastAttempt(script, k);
    PollFatalAtLastAttempt(script, k);
  }

  /** Every attempt the loop makes before its last one continues, and so
      does the last one when the time ran out; all start inside the window. */
  lemma {:induction false} PollContinuesUntilStop(script: PollScript, k: nat)
    requires ClockAdvances(script)
    ensures var run := PollFrom(script, k);
            forall j :: k <= j < run.attempts ==>
              script.checkTimes(j) < MaxPollingTimeMs
              && (j < run.attempts - 1 || run.result == Err(ApiTimeout) ==>
                    AttemptOf(script.replies(j), script.reportTimes(j)).next.Continue?)
    decreases 30 - k
  {
    if script.checkTimes(k) < MaxPollingTimeMs {
      ClockLowerBound(script, k);
      if AttemptOf(script.replies(k), script.reportTimes(k)).next.Continue? {
        ContinueStep(script, k);
        PollContinuesUntilStop(script, k + 1);
      } else {
        StopStep(script, k);
      }
    }
  }

  /** A run that times out ends where the clock reads 5 minutes. */
  lemma {:induction false} PollTimesOutAtWindowEnd(script: PollScript, k: nat)
    requires ClockAdvances(script)
    ensures var run := PollFrom(script, k);
            run.result == Err(ApiTimeout) ==> script.checkTimes(run.attempts) >= MaxPollingTimeMs
    decreases 30 - k
  {
    if script.checkTimes(k) < MaxPollingTimeMs {
      ClockLowerBound(script, k);
      if AttemptOf(script.replies(k), script.reportTimes(k)).next.Continue? {
        ContinueStep(script, k);
        PollTimesOutAtWindowEnd(script, k + 1);
      } else {
        StopStep(script, k);
      }
    }
  }

  /** A run that succeeds ends at the attempt that found the task done, with its file id. */
  lemma {:induction false} PollDoneAtLastAttempt(script: PollScript, k: nat)
    requires ClockAdvances(script)
    ensures var run := PollFrom(script, k);
            run.result.Ok? ==>
              run.attempts > k
              && AttemptOf(script.replies(run.attempts - 1), script.reportTimes(run.attempts - 1)).next
                 == Done(run.result.value)
    decreases 30 - k
  {
    if script.checkTimes(k) < MaxPollingTimeMs {
      ClockLowerBound(script, k);
      if AttemptOf(script.replies(k), script.reportTimes(k)).next.Continue? {
        ContinueStep(script, k);
        PollDoneAtLastAttempt(script, k + 1);
        assert PollFrom(script, k).result == PollFrom(script, k + 1).result;
        assert PollFrom(script, k).attempts == PollFrom(script, k + 1).attempts;
      } else {
        StopStep(script, k);
        assert PollFrom(script, k).attempts - 1 == k;
      }
    }
  }

  /** A run that fails before the time runs out ends at a fatal attempt,
      with VIDEO_GENERATION_FAILED. */
  lemma {:induction false} PollFatalAtLastAttempt(script: PollScript, k: nat)
    requires ClockAdvances(script)
    ensures var run := PollFrom(script, k);
            run.result.Err? && run.result != Err(ApiTimeout) ==>
              run.attempts > k
              && run.result.error == VideoGenerationFailed
              && AttemptOf(script.replies(run.attempts - 1), script.reportTimes(run.attempts - 1)).next.Fatal?
    decreases 30 - k
  {
    if script.checkTimes(k) < MaxPollingTimeMs {
      ClockLowerBound(script, k);
      if AttemptOf(script.replies(k), script.reportTimes(k)).next.Continue? {
        ContinueStep(script, k);
        PollFatalAtLastAttempt(script, k + 1);
        assert PollFrom(script, k).result == PollFrom(script, k + 1).result;
        assert PollFrom(script, k).attempts == PollFrom(script, k + 1).attempts;
      } else {
        StopStep(script, k);
        assert PollFrom(script, k).attempts - 1 == k;
      }
    }
  }

  /** The run with `reports` already made before it. */
  function Prepended(reports: seq<real>, run: PollRun): PollRun {
    PollRun(run.result, reports + run.reports, run.attempts)
  }

  lemma ContinueStep(script: PollScript, k: nat)
    requires ClockAdvances(script) && script.checkTimes(k) < MaxPollingTimeMs
    requires AttemptOf(script.replies(k), script.reportTimes(k)).next.Continue?
    ensures PollFrom(script, k) == Prepended(Reported(AttemptOf(script.replies(k), script.reportTimes(k))), PollFrom(script, k + 1))
  {
  }

  lemma StopStep(script: PollScript, k: nat)
    requires ClockAdvances(script) && script.checkTimes(k) < MaxPollingTimeMs
    requires !AttemptOf(script.replies(k), script.reportTimes(k)).next.Continue?
    ensures var a := AttemptOf(script.replies(k), script.reportTimes(k));
            PollFrom(script, k) == PollRun(if a.next.Done? then Ok(a.next.fileId) else Err(VideoGenerationFailed), Reported(a), k + 1)
  {
  }

  lemma PrependedTwice(first: seq<real>, second: seq<real>, run: PollRun)
    ensures Prepended(first, Prepended(second, run)) == Prepended(first + second, run)
  {
    assert first + (second + run.reports) == (first + second) + run.reports;
  }

  /** `_pollApiTaskStatus`: at most 30 attempts (the clock passes 300 s by
      then), every report in [0.2, 0.8], in non-decreasing order. */
  method PollApiTaskStatus(taskId: string, script: PollScript) returns (r: Result<string>, reports: seq<real>, attempts: nat)
    requires ClockAdvances(script)
    ensures PollRun(r, reports, attempts) == PollFrom(script, 0)
    ensures attempts <= 30
    ensures InBand(reports, 0.2) && NonDecreasing(reports)
  {
    attempts := 0;
    reports := [];
    while script.checkTimes(attempts) < MaxPollingTimeMs
      invariant PollFrom(script, 0) == Prepended(reports, PollFrom(script, attempts))
      decreases 30 - attempts
    {
      ClockLowerBound(script, attempts);
      var a := AttemptOf(script.replies(attempts), script.reportTimes(attempts));
      if !a.next.Continue? {
        StopStep(script, attempts);
        r := if a.next.Done? then Ok(a.next.fileId) else Err(VideoGenerationFailed);
        reports := reports + Reported(a);
        attempts := attempts + 1;
        PollAttemptsBounded(script, 0);
        PollReportsOrdered(script, 0);
        return;
      }
      ContinueStep(script, attempts);
      PrependedTwice(reports, Reported(a), PollFrom(script, attempts + 1));
      reports := reports + Reported(a);
      attempts := attempts + 1;
    }
    r := Err(ApiTimeout);
    assert reports + [] == reports;
    PollAttemptsBounded(script, 0);
    PollReportsOrdered(script, 0);
  }

  // ---------------------------------------------------------- generateVideo

  /** The text `generateVideo` reports: a message of `ERROR_MESSAGES` as it
      is, anything else as VIDEO_GENERATION_FAILED. */
  function ReportedError(message: string): (m: string)
    ensures m in KnownErrorMessages()
    ensures message in KnownErrorMessages() ==> m == message
  {
    if message in KnownErrorMessages() then message else VideoGenerationFailed
  }

  /** The collaborators of `generateVideo`: the network and key checks, the
      image read, the two API calls, the hash and the two stores. */
  datatype SingleServices = SingleServices(
    networkOk: bool,
    configured: bool,
    readImage: string -> Result<string>,
    createTask: (string, string) -> CreateReply,
    retrieve: string -> RetrieveReply,
    digest: string -> string,
    digestOk: bool,
    cacheReadOk: bool,
    cacheResetOk: bool,
    cacheWriteOk: bool,
    ledgerWriteOk: bool)

  /** The collaborators' answers, as heap-independent functions. */
  function ReadImage(svc: SingleServices, uri: string): Result<string> {
    svc.readImage(uri)
  }

  function CreateTask(svc: SingleServices, prompt: string, dataUri: string): CreateReply {
    svc.createTask(prompt, dataUri)
  }

  function Retrieve(svc: SingleServices, fileId: string): RetrieveReply {
    svc.retrieve(fileId)
  }

  /** What `_checkCache` answers on the stored metadata. */
  function LookupIn(svc: SingleServices, file: Cache.MetadataFile, imageUri: string, themeId: string): Cache.CacheLookup {
    Cache.CheckOutcome(svc.digest, file, imageUri, themeId, svc.digestOk, svc.cacheReadOk, svc.cacheResetOk)
  }

  /** The metadata file after a run: untouched when the run stops before
      `_checkCache`, as the check leaves it otherwise, and written through
      with a generated URL under the key the check produced. */
  function CacheAfterRun(svc: SingleServices, imageUri: string, themeId: string, reachedCache: bool, run: SingleRun,
                         before: Cache.MetadataFile): Cache.MetadataFile
  {
    if !reachedCache then before
    else
      var checked := Cache.AfterCheck(before, svc.digestOk, svc.cacheReadOk, svc.cacheResetOk);
      if run.Generated? then
        Cache.AfterStore(checked, LookupIn(svc, before, imageUri, themeId).cacheKey, Some(run.url),
                         svc.cacheReadOk, svc.cacheResetOk, svc.cacheWriteOk)
      else checked
  }

  datatype SingleRun = FromCache(url: string) | Generated(url: string) | Failed(message: string)

  /** The image as `_encodeImageAsDataUri` hands it to the API. */
  function DataUriFor(svc: SingleServices, imageUri: string): Result<string> {
    EncodeImageAsDataUri(imageUri, ReadImage(svc, imageUri))
  }

  /** The steps of `generateVideo` after a cache miss, for the theme's prompt
      and the encoded image. */
  function MissOutcome(svc: SingleServices, script: PollScript, prompt: string, dataUri: Result<string>): SingleRun
    requires ClockAdvances(script)
  {
    if dataUri.Err? then Failed(dataUri.error)
    else
      var taskId := TaskIdFrom(CreateTask(svc, prompt, dataUri.value));
      if taskId.Err? then Failed(taskId.error)
      else
        var fileId := PollFrom(script, 0).result;
        if fileId.Err? then Failed(fileId.error)
        else
          var url := DownloadUrlFrom(Retrieve(svc, fileId.value));
          if url.Err? then Failed(url.error) else Generated(url.value)
  }

  /** The steps of `generateVideo`, given what the cache holds. */
  function SingleOutcome(svc: SingleServices, script: PollScript, themeId: string, imageUri: string,
                         lookup: Cache.CacheLookup): SingleRun
    requires ClockAdvances(script)
  {
    PromptedOutcome(svc, script, GetThemeDetails(themeId), imageUri, lookup)
  }

  /** The same steps, given the answer of `_getThemeDetails`. */
  function PromptedOutcome(svc: SingleServices, script: PollScript, themeDetails: Result<string>, imageUri: string,
                           lookup: Cache.CacheLookup): SingleRun
    requires ClockAdvances(script)
  {
    if !svc.networkOk then Failed(NetworkConnectionError)
    else if !svc.configured then Failed(ApiConfigError)
    else if themeDetails.Err? then Failed(themeDetails.error)
    else if lookup.cachedUrl.Some? then FromCache(lookup.cachedUrl.value)
    else MissOutcome(svc, script, themeDetails.value, DataUriFor(svc, imageUri))
  }

  datatype GenerationResult = GenerationResult(success: bool, videoUrl: Option<string>, error: Option<string>)

  function SingleResult(run: SingleRun): (r: GenerationResult)
    ensures r.success <==> !run.Failed?
    ensures r.success ==> r.videoUrl == Some(run.url) && r.error.None?
    ensures !r.success ==> r.error == Some(ReportedError(run.message)) && r.videoUrl.None?
  {
    match run
    case Failed(m) => GenerationResult(false, None, Some(ReportedError(m)))
    case FromCache(u) => GenerationResult(true, Some(u), None)
    case Generated(u) => GenerationResult(true, Some(u), None)
  }

  /** A generated URL is non-empty. */
  lemma MissUrlNonEmpty(svc: SingleServices, script: PollScript, prompt: string, dataUri: Result<string>)
    requires ClockAdvances(script)
    ensures MissOutcome(svc, script, prompt, dataUri).Generated? ==> MissOutcome(svc, script, prompt, dataUri).url != ""
  {
  }

  /** What the cache hands back is never empty. */
  lemma LookupInNonEmpty(svc: SingleServices, file: Cache.MetadataFile, imageUri: string, themeId: string)
    ensures var lookup := LookupIn(svc, file, imageUri, themeId);
            lookup.cachedUrl.Some? ==>
              lookup.cachedUrl.value != "" && lookup.cacheKey == Some(Cache.CacheKey(svc.digest, imageUri, themeId))
  {
  }

  /** An unknown theme fails before the cache is consulted or the image read. */
  lemma SingleThemeCheckedBeforeCache(svc: SingleServices, script: PollScript, themeId: string, imageUri: string,
                                      lookup: Cache.CacheLookup)
    requires ClockAdvances(script) && svc.networkOk && svc.configured && ThemeOf(themeId).None?
    ensures SingleOutcome(svc, script, themeId, imageUri, lookup) == Failed(InvalidTheme)
    ensures SingleResult(SingleOutcome(svc, script, themeId, imageUri, lookup)).error == Some(InvalidTheme)
  {
  }

  /** Every progress value lies in [0, 1]. */
  predicate Fractions(progress: seq<real>) {
    forall i :: 0 <= i < |progress| ==> 0.0 <= progress[i] <= 1.0
  }

  lemma FractionsAppend(a: seq<real>, b: seq<real>)
    requires Fractions(a) && Fractions(b)
    ensures Fractions(a + b)
  {
    forall i | 0 <= i < |a + b|
      ensures 0.0 <= (a + b)[i] <= 1.0
    {
      if i >= |a| {
        assert (a + b)[i] == b[i - |a|];
      }
    }
  }

  lemma InBandFractions(rs: seq<real>, floor: real)
    requires InBand(rs, floor) && floor >= 0.0
    ensures Fractions(rs)
  {
  }

  /** `_pollApiTaskStatus` as `generateVideo` sees it: the file id or the
      error, and reports that are all fractions. */
  method PollForFile(taskId: string, script: PollScript) returns (fileId: Result<string>, reports: seq<real>)
    requires ClockAdvances(script)
    ensures fileId == PollFrom(script, 0).result
    ensures Fractions(reports)
  {
    var attempts;
    fileId, reports, attempts := PollApiTaskStatus(taskId, script);
    InBandFractions(reports, 0.2);
  }

  /** The cache-miss part of `generateVideo`: encode, create, poll, retrieve.
      `progress` lists the reports made, ending at 0.9 once the video is ready. */
  method GenerateOnMiss(prompt: string, dataUri: Result<string>, svc: SingleServices, script: PollScript)
    returns (run: SingleRun, progress: seq<real>)
    requires ClockAdvances(script)
    ensures run == MissOutcome(svc, script, prompt, dataUri)
    ensures !run.FromCache?
    ensures progress != [] && progress[0] == 0.05 && Fractions(progress)
    ensures run.Generated? ==> progress[|progress| - 1] == 0.9 && run.url != ""
  {
    progress := [0.05];
    if dataUri.Err? {
      return Failed(dataUri.error), progress;
    }
    progress := [0.05, 0.1];
    var taskId := TaskIdFrom(CreateTask(svc, prompt, dataUri.value));
    if taskId.Err? {
      return Failed(taskId.error), progress;
    }
    var fileId, reports := PollForFile(taskId.value, script);
    FractionsAppend([0.05, 0.1, 0.2], reports);
    progress := [0.05, 0.1, 0.2] + reports;
    if fileId.Err? {
      return Failed(fileId.error), progress;
    }
    FractionsAppend(progress, [0.9]);
    progress := progress + [0.9];
    var url := DownloadUrlFrom(Retrieve(svc, fileId.value));
    if url.Err? {
      return Failed(url.error), progress;
    }
    run := Generated(url.value);
  }

  /** What `generateVideo` promises of a run: the reported result, one
      report of 1 on a cache hit, no spend unless a video was generated,
      the 10-second estimate charged when one was, the cache as the run's
      reads and write-through leave it, a generated URL found again under
      the request's key, and progress values that are fractions ending at 1.
      `reachedCache` says whether the checks before `_checkCache` passed. */
  predicate SingleRunEffects(svc: SingleServices, imageUri: string, themeId: string, reachedCache: bool, run: SingleRun,
                             result: GenerationResult, progress: seq<real>,
                             ledgerBefore: CostTracker.LedgerFile, ledgerAfter: CostTracker.LedgerFile,
                             cacheBefore: Cache.MetadataFile, cacheAfter: Cache.MetadataFile)
  {
    && result == SingleResult(run)
    && (run.FromCache? ==> progress == [1.0])
    && (!run.Generated? ==> ledgerAfter == ledgerBefore)
    && (run.Generated? && svc.ledgerWriteOk ==>
          CostTracker.ReadAccumulatedCost(ledgerAfter)
          == CostTracker.ReadAccumulatedCost(ledgerBefore) + CostTracker.CallCost(EstimatedVideoDurationSeconds))
    && cacheAfter == CacheAfterRun(svc, imageUri, themeId, reachedCache, run, cacheBefore)
    && (run.Generated? && LookupIn(svc, cacheBefore, imageUri, themeId).cacheKey.Some?
        && Cache.CacheKey(svc.digest, imageUri, themeId) != "" && svc.cacheWriteOk ==>
          cacheAfter.Entries?
          && Cache.LookupEntry(cacheAfter.entries, Cache.CacheKey(svc.digest, imageUri, themeId)) == Some(run.url))
    && progress != [] && progress[|progress| - 1] == 1.0 && Fractions(progress)
  }

  /** A run that returns before `_checkCache` touches neither store. */
  lemma EarlyReturnEffects(svc: SingleServices, imageUri: string, themeId: string, run: SingleRun,
                           ledger: CostTracker.LedgerFile, cache: Cache.MetadataFile)
    requires run.Failed?
    ensures SingleRunEffects(svc, imageUri, themeId, false, run, SingleResult(run), [1.0], ledger, ledger, cache, cache)
  {
  }

  /** A cache hit spends nothing and leaves the cache as the check left it. */
  lemma HitEffects(svc: SingleServices, imageUri: string, themeId: string, url: string,
                   ledger: CostTracker.LedgerFile, cacheBefore: Cache.MetadataFile, cacheAfter: Cache.MetadataFile)
    requires cacheAfter == Cache.AfterCheck(cacheBefore, svc.digestOk, svc.cacheReadOk, svc.cacheResetOk)
    ensures SingleRunEffects(svc, imageUri, themeId, true, FromCache(url), SingleResult(FromCache(url)), [1.0],
                             ledger, ledger, cacheBefore, cacheAfter)
  {
  }

  /** A cache miss charges and stores only what it generated. */
  lemma MissEffects(svc: SingleServices, imageUri: string, themeId: string, run: SingleRun, progress: seq<real>,
                    ledgerBefore: CostTracker.LedgerFile, ledgerAfter: CostTracker.LedgerFile,
                    cacheBefore: Cache.MetadataFile, cacheAfter: Cache.MetadataFile)
    requires !run.FromCache?
    requires !run.Generated? ==>
               ledgerAfter == ledgerBefore
               && cacheAfter == Cache.AfterCheck(cacheBefore, svc.digestOk, svc.cacheReadOk, svc.cacheResetOk)
    requires run.Generated? ==>
               run.url != ""
               && cacheAfter == CacheAfterRun(svc, imageUri, themeId, true, run, cacheBefore)
    requires run.Generated? && svc.ledgerWriteOk ==>
               CostTracker.ReadAccumulatedCost(ledgerAfter)
               == CostTracker.ReadAccumulatedCost(ledgerBefore) + CostTracker.CallCost(EstimatedVideoDurationSeconds)
    requires progress != [] && progress[|progress| - 1] == 1.0 && Fractions(progress)
    ensures SingleRunEffects(svc, imageUri, themeId, true, run, SingleResult(run), progress,
                             ledgerBefore, ledgerAfter, cacheBefore, cacheAfter)
  {
    if run.Generated? && LookupIn(svc, cacheBefore, imageUri, themeId).cacheKey.Some?
       && Cache.CacheKey(svc.digest, imageUri, themeId) != "" && svc.cacheWriteOk {
      Cache.StoreAfterCheckFinds(svc.digest, cacheBefore, imageUri, themeId,
                                 svc.digestOk, svc.cacheReadOk, svc.cacheResetOk, run.url);
    }
  }

  /** `generateVideo`. `progress` lists the values passed to `onProgress`.
      On a hit the cached URL is returned after one report of 1, with no
      image read, no API call and no spend; a generated URL is charged for
      the 10-second estimate and written through to the cache. */
  method GenerateVideo(imageUri: string, themeId: string, svc: SingleServices, script: PollScript,
                       cache: Cache.CacheService, ledger: CostTracker.CostLedger)
    returns (result: GenerationResult, progress: seq<real>)
    requires ClockAdvances(script)
    modifies cache, ledger
    ensures SingleRunEffects(svc, imageUri, themeId, svc.networkOk && svc.configured && GetThemeDetails(themeId).Ok?,
                             SingleOutcome(svc, script, themeId, imageUri, LookupIn(svc, old(cache.file), imageUri, themeId)),
                             result, progress, old(ledger.file), ledger.file, old(cache.file), cache.file)
  {
    result, progress := GenerateWithDetails(GetThemeDetails(themeId), imageUri, themeId, svc, script, cache, ledger);
  }

  /** The body of `generateVideo`, for the answer `_getThemeDetails` gives;
      the lookup is pure, so taking its answer up front changes nothing. */
  method GenerateWithDetails(themeDetails: Result<string>, imageUri: string, themeId: string, svc: SingleServices,
                             script: PollScript, cache: Cache.CacheService, ledger: CostTracker.CostLedger)
    returns (result: GenerationResult, progress: seq<real>)
    requires ClockAdvances(script)
    modifies cache, ledger
    ensures SingleRunEffects(svc, imageUri, themeId, svc.networkOk && svc.configured && themeDetails.Ok?,
                             PromptedOutcome(svc, script, themeDetails, imageUri, LookupIn(svc, old(cache.file), imageUri, themeId)),
                             result, progress, old(ledger.file), ledger.file, old(cache.file), cache.file)
  {
    if !svc.networkOk {
      EarlyReturnEffects(svc, imageUri, themeId, Failed(NetworkConnectionError), ledger.file, cache.file);
      return SingleResult(Failed(NetworkConnectionError)), [1.0];
    }
    if !svc.configured {
      EarlyReturnEffects(svc, imageUri, themeId, Failed(ApiConfigError), ledger.file, cache.file);
      return SingleResult(Failed(ApiConfigError)), [1.0];
    }
    if themeDetails.Err? {
      EarlyReturnEffects(svc, imageUri, themeId, Failed(themeDetails.error), ledger.file, cache.file);
      return SingleResult(Failed(themeDetails.error)), [1.0];
    }
    var lookup := cache.CheckCache(svc.digest, imageUri, themeId, svc.digestOk, svc.cacheReadOk, svc.cacheResetOk);
    assert lookup == LookupIn(svc, old(cache.file), imageUri, themeId);
    if lookup.cachedUrl.Some? {
      HitEffects(svc, imageUri, themeId, lookup.cachedUrl.value, ledger.file, old(cache.file), cache.file);
      return SingleResult(FromCache(lookup.cachedUrl.value)), [1.0];
    }
    var run;
    run, progress := GenerateAndStore(themeDetails.value, imageUri, svc, script, cache, ledger, lookup.cacheKey);
    MissEffects(svc, imageUri, themeId, run, progress, old(ledger.file), ledger.file, old(cache.file), cache.file);
    result := SingleResult(run);
  }

  /** The cache miss of `generateVideo`: generate, then charge the estimate
      and write the URL through under the looked-up key. */
  method GenerateAndStore(prompt: string, imageUri: string, svc: SingleServices, script: PollScript,
                          cache: Cache.CacheService, ledger: CostTracker.CostLedger, cacheKey: Option<string>)
    returns (run: SingleRun, progress: seq<real>)
    requires ClockAdvances(script)
    modifies cache, ledger
    ensures run == MissOutcome(svc, script, prompt, DataUriFor(svc, imageUri)) && !run.FromCache?
    ensures !run.Generated? ==> ledger.file == old(ledger.file) && cache.file == old(cache.file)
    ensures run.Generated? && svc.ledgerWriteOk ==>
              CostTracker.ReadAccumulatedCost(ledger.file)
              == CostTracker.ReadAccumulatedCost(old(ledger.file)) + CostTracker.CallCost(EstimatedVideoDurationSeconds)
    ensures run.Generated? ==>
              run.url != ""
              && cache.file == Cache.AfterStore(old(cache.file), cacheKey, Some(run.url),
                                                svc.cacheReadOk, svc.cacheResetOk, svc.cacheWriteOk)
    ensures progress != [] && progress[|progress| - 1] == 1.0 && Fractions(progress)
  {
    var reports;
    run, reports := GenerateOnMiss(prompt, DataUriFor(svc, imageUri), svc, script);
    FractionsAppend(reports, [1.0]);
    progress := reports + [1.0];
    if run.Failed? {
      return;
    }
    ledger.RecordApiCallCost(EstimatedVideoDurationSeconds, svc.ledgerWriteOk);
    cache.CacheResult(cacheKey, Some(run.url), svc.cacheReadOk, svc.cacheResetOk, svc.cacheWriteOk);
  }

  // ------------------------------------------------ generateNarrativeVideo

  const TotalSteps: real := 5.0
  const TotalClips: nat := 2
  const NoClipsSucceeded: string := VideoGenerationFailed + " (No clips succeeded)"

  datatype ServiceStage = Initializing | Generating | Extracting | Stitching | Complete | Error

  /** `GenerationProgress` as this service fills it in. */
  datatype StepProgress = StepProgress(
    stage: ServiceStage,
    currentClip: Option<int>,
    totalClips: Option<int>,
    overallProgress: real,
    message: Option<string>)

  /** `currentProgressState` before the first update. */
  const InitialProgress: StepProgress := StepProgress(Initializing, None, None, 0.0, None)

  /** `Math.min(1, step / totalSteps)` */
  function StepFraction(step: nat): (p: real)
    ensures 0.0 <= p <= 1.0
    ensures step <= 5 ==> p == (step as real) / TotalSteps
    ensures step >= 5 ==> p == 1.0
  {
    JsMath.Min(1.0, (step as real) / TotalSteps)
  }

  /** Later steps never report less. */
  lemma StepFractionMonotone(m: nat, n: nat)
    requires m <= n
    ensures StepFraction(m) <= StepFraction(n)
  {
    assert (m as real) / TotalSteps <= (n as real) / TotalSteps;
  }

  /** The local `updateProgress` and the state it keeps for the error report.
      `emitted` lists the records it passed to `onProgress`. */
  class StepReporter {
    var currentStep: nat
    var state: StepProgress
    var emitted: seq<StepProgress>

    /** Update `k` (from 1) reported `min(1, k / 5)`, and the kept state is
        the last record. */
    ghost predicate Valid()
      reads this
    {
      && |emitted| == currentStep
      && (forall k :: 0 <= k < |emitted| ==>
            emitted[k].overallProgress == StepFraction(k + 1) && emitted[k].stage != Error)
      && state == if emitted == [] then InitialProgress else emitted[|emitted| - 1]
    }

    constructor ()
      ensures Valid() && emitted == []
    {
      currentStep := 0;
      state := InitialProgress;
      emitted := [];
    }

    /** `updateProgress(stage, currentClip, message)` */
    method UpdateProgress(stage: ServiceStage, currentClip: Option<int>, message: string)
      requires Valid() && stage != Error
      modifies this
      ensures Valid()
      ensures emitted == old(emitted) + [StepProgress(stage, currentClip, Some(TotalClips),
                                                      StepFraction(|old(emitted)| + 1), Some(message))]
    {
      currentStep := currentStep + 1;
      state := StepProgress(stage, currentClip, Some(TotalClips), StepFraction(currentStep), Some(message));
      emitted := emitted + [state];
    }

    /** The record of the `catch` block: the kept state with stage 'error'
        and the message, at the progress last reported (0 before any). */
    function ErrorRecord(message: string): (e: StepProgress)
      reads this
      requires Valid()
      ensures e.stage == Error && e.message == Some(message)
      ensures e.overallProgress == if emitted == [] then 0.0 else emitted[|emitted| - 1].overallProgress
    {
      state.(stage := Error, message := Some(message))
    }
  }

  type FrameExtraction = FrameExtractor.FrameExtraction

  /** The collaborators of the narrative flow: the checks, the image read,
      the API calls with the polling environment of clip `i`, the frame
      extractor, the stitcher, and whether the cost file can be written. */
  datatype NarrativeServices = NarrativeServices(
    networkOk: bool,
    configured: bool,
    readImage: string -> Result<string>,
    createTask: (string, string) -> CreateReply,
    scripts: nat -> PollScript,
    retrieve: string -> RetrieveReply,
    extract: string -> Result<FrameExtraction>,
    stitch: (seq<VideoStitcher.ClipInput>, VideoStitcher.VideoResolution) -> Result<string>,
    ledgerWriteOk: bool)

  ghost predicate ClocksAdvance(svc: NarrativeServices) {
    ClockAdvances(svc.scripts(0)) && ClockAdvances(svc.scripts(1))
  }

  /** The collaborators' answers, as heap-independent functions. */
  function ImageOf(svc: NarrativeServices, uri: string): Result<string> {
    svc.readImage(uri)
  }

  function TaskOf(svc: NarrativeServices, prompt: string, dataUri: string): CreateReply {
    svc.createTask(prompt, dataUri)
  }

  function ScriptOf(svc: NarrativeServices, i: nat): PollScript {
    svc.scripts(i)
  }

  function VideoOf(svc: NarrativeServices, fileId: string): RetrieveReply {
    svc.retrieve(fileId)
  }

  function ExtractionOf(svc: NarrativeServices, url: string): Result<FrameExtraction> {
    svc.extract(url)
  }

  function StitchOf(svc: NarrativeServices, clips: seq<VideoStitcher.ClipInput>): Result<string> {
    svc.stitch(clips, VideoStitcher.Hd)
  }

  /** The input of the next clip: the original image, encoded when used, or
      a frame that is already a data URI. */
  datatype Seed = Original | Frame(dataUri: string)

  function SeedDataUri(svc: NarrativeServices, seed: Seed, imageUri: string): Result<string> {
    match seed
    case Frame(d) => Ok(d)
    case Original => EncodeImageAsDataUri(imageUri, ImageOf(svc, imageUri))
  }

  /** Steps 1 and 2 of the loop body for clip `i` (from 0): the video URL,
      or the error that sends the clip to `failedClips`. */
  function ClipUrl(svc: NarrativeServices, prompt: string, seed: Seed, imageUri: string, i: nat): Result<string>
    requires ClockAdvances(ScriptOf(svc, i))
  {
    var dataUri :- SeedDataUri(svc, seed, imageUri);
    var taskId :- TaskIdFrom(TaskOf(svc, prompt, dataUri));
    var fileId :- PollFrom(ScriptOf(svc, i), 0).result;
    DownloadUrlFrom(VideoOf(svc, fileId))
  }

  /** `clipDuration` after step 3: measured, or the 10-second estimate. */
  function MeasuredOrEstimate(e: Result<FrameExtraction>): real {
    if e.Ok? then e.value.durationSeconds else EstimatedVideoDurationSeconds
  }

  /** The loop's variables: the seed, `videoClipData` and `failedClips`. */
  datatype LoopState = LoopState(seed: Seed, clips: seq<VideoStitcher.ClipInput>, failed: seq<int>)

  /** The loop body for clip `i`, given its URL outcome. */
  function StepClip(svc: NarrativeServices, i: nat, st: LoopState, url: Result<string>): LoopState {
    if url.Err? then LoopState(if i < 1 then Original else st.seed, st.clips, st.failed + [i + 1])
    else
      var e := ExtractionOf(svc, url.value);
      var clip := VideoStitcher.ClipInput(url.value, MeasuredOrEstimate(e));
      if i < 1 then LoopState(if e.Ok? then Frame(e.value.base64DataUri) else Original, st.clips + [clip], st.failed)
      else LoopState(st.seed, st.clips + [clip], st.failed)
  }

  /** The loop's variables after the first `n` clips. */
  function LoopUpTo(svc: NarrativeServices, prompts: seq<string>, imageUri: string, n: nat): LoopState
    requires n <= TotalClips && |prompts| >= TotalClips && ClocksAdvance(svc)
  {
    if n == 0 then LoopState(Original, [], [])
    else
      var st := LoopUpTo(svc, prompts, imageUri, n - 1);
      StepClip(svc, n - 1, st, ClipUrl(svc, prompts[n - 1], st.seed, imageUri, n - 1))
  }

  /** The URL outcome of clip `i` (from 0) in the loop. */
  function ClipUrlAt(svc: NarrativeServices, prompts: seq<string>, imageUri: string, i: nat): Result<string>
    requires i < TotalClips && |prompts| >= TotalClips && ClocksAdvance(svc)
  {
    ClipUrl(svc, prompts[i], LoopUpTo(svc, prompts, imageUri, i).seed, imageUri, i)
  }

  /** What the loop keeps after `n` clips: every number lands in exactly
      one of `failedClips` and `videoClipData`, the failed numbers are
      increasing and at most `n`, and every stored clip has a non-empty URL
      and the measured or estimated duration of that URL. */
  ghost predicate Accounted(svc: NarrativeServices, st: LoopState, n: nat) {
    && |st.clips| + |st.failed| == n
    && (forall j, k :: 0 <= j < k < |st.failed| ==> st.failed[j] < st.failed[k])
    && (forall j :: 0 <= j < |st.failed| ==> 1 <= st.failed[j] <= n)
    && (forall j :: 0 <= j < |st.clips| ==>
          st.clips[j].uri != "" && st.clips[j].duration == MeasuredOrEstimate(ExtractionOf(svc, st.clips[j].uri)))
  }

  /** One pass of the loop body keeps the accounting, and the new clip
      number is failed exactly when its URL is an error. */
  lemma StepClipAccounts(svc: NarrativeServices, i: nat, st: LoopState, url: Result<string>)
    requires Accounted(svc, st, i)
    requires url.Ok? ==> url.value != ""
    ensures Accounted(svc, StepClip(svc, i, st, url), i + 1)
    ensures i + 1 in StepClip(svc, i, st, url).failed <==> url.Err?
    ensures forall k :: 1 <= k <= i ==> (k in StepClip(svc, i, st, url).failed <==> k in st.failed)
  {
    var next := StepClip(svc, i, st, url);
    if url.Err? {
      assert next.failed[|st.failed|] == i + 1;
    } else {
      assert next.failed == st.failed;
      assert forall j :: 0 <= j < |st.failed| ==> st.failed[j] != i + 1;
      var e := ExtractionOf(svc, url.value);
      assert next.clips == st.clips + [VideoStitcher.ClipInput(url.value, MeasuredOrEstimate(e))];
    }
  }

  /** Every clip URL the loop sees is non-empty when it is one. */
  lemma ClipUrlNonEmpty(svc: NarrativeServices, prompt: string, seed: Seed, imageUri: string, i: nat)
    requires ClockAdvances(ScriptOf(svc, i))
    ensures ClipUrl(svc, prompt, seed, imageUri, i).Ok? ==> ClipUrl(svc, prompt, seed, imageUri, i).value != ""
  {
  }

  /** Any number of passes keeps the accounting, and clip `i + 1` is failed
      exactly when its generation failed. */
  lemma LoopAccountsForEveryClip(svc: NarrativeServices, prompts: seq<string>, imageUri: string, n: nat)
    requires n <= TotalClips && |prompts| >= TotalClips && ClocksAdvance(svc)
    ensures Accounted(svc, LoopUpTo(svc, prompts, imageUri, n), n)
    ensures forall i :: 0 <= i < n ==>
              (i + 1 in LoopUpTo(svc, prompts, imageUri, n).failed <==> ClipUrlAt(svc, prompts, imageUri, i).Err?)
  {
    LoopKeepsAccounts(svc, prompts, imageUri, n);
    LoopFailsExactlyTheFailedClips(svc, prompts, imageUri, n);
  }

  lemma {:induction false} LoopKeepsAccounts(svc: NarrativeServices, prompts: seq<string>, imageUri: string, n: nat)
    requires n <= TotalClips && |prompts| >= TotalClips && ClocksAdvance(svc)
    ensures Accounted(svc, LoopUpTo(svc, prompts, imageUri, n), n)
  {
    if n > 0 {
      LoopKeepsAccounts(svc, prompts, imageUri, n - 1);
      var st := LoopUpTo(svc, prompts, imageUri, n - 1);
      ClipUrlNonEmpty(svc, prompts[n - 1], st.seed, imageUri, n - 1);
      StepClipAccounts(svc, n - 1, st, ClipUrlAt(svc, prompts, imageUri, n - 1));
    }
  }

  lemma {:induction false} LoopFailsExactlyTheFailedClips(svc: NarrativeServices, prompts: seq<string>,
                                                          imageUri: string, n: nat)
    requires n <= TotalClips && |prompts| >= TotalClips && ClocksAdvance(svc)
    ensures forall i :: 0 <= i < n ==>
              (i + 1 in LoopUpTo(svc, prompts, imageUri, n).failed <==> ClipUrlAt(svc, prompts, imageUri, i).Err?)
  {
    if n > 0 {
      LoopFailsExactlyTheFailedClips(svc, prompts, imageUri, n - 1);
      LoopKeepsAccounts(svc, prompts, imageUri, n - 1);
      var st := LoopUpTo(svc, prompts, imageUri, n - 1);
      ClipUrlNonEmpty(svc, prompts[n - 1], st.seed, imageUri, n - 1);
      StepClipAccounts(svc, n - 1, st, ClipUrlAt(svc, prompts, imageUri, n - 1));
    }
  }

  /** The second clip starts from the first clip's last frame exactly when
      the first clip was generated and its frame extracted; a failure of
      either falls back to the original image. The last clip does not move
      the seed. */
  lemma NextSeedRule(svc: NarrativeServices, prompts: seq<string>, imageUri: string)
    requires |prompts| >= TotalClips && ClocksAdvance(svc)
    ensures var first := ClipUrlAt(svc, prompts, imageUri, 0);
            LoopUpTo(svc, prompts, imageUri, 1).seed
            == if first.Ok? && ExtractionOf(svc, first.value).Ok?
               then Frame(ExtractionOf(svc, first.value).value.base64DataUri)
               else Original
    ensures LoopUpTo(svc, prompts, imageUri, 2).seed == LoopUpTo(svc, prompts, imageUri, 1).seed
    ensures ClipUrlAt(svc, prompts, imageUri, 0) == ClipUrl(svc, prompts[0], Original, imageUri, 0)
  {
  }

  /** The steps of `generateNarrativeVideo`: the checks, the budget for five
      10-second clips, the prompts, the loop, then stitching at 'hd'. */
  function ServiceRun(svc: NarrativeServices, themeId: string, imageUri: string, withinBudget: bool)
    : Result<(seq<VideoStitcher.ClipInput>, string)>
    requires ClocksAdvance(svc)
  {
    if !svc.networkOk then Err(NetworkConnectionError)
    else if !svc.configured then Err(ApiConfigError)
    else if !withinBudget then Err(BudgetExceeded)
    else
      var prompts :- GetNarrativePrompts(themeId);
      StitchRun(svc, LoopUpTo(svc, prompts, imageUri, TotalClips).clips)
  }

  /** After the loop: no clip is an error, and a stitching error is wrapped. */
  function StitchRun(svc: NarrativeServices, clips: seq<VideoStitcher.ClipInput>)
    : (r: Result<(seq<VideoStitcher.ClipInput>, string)>)
    ensures r.Ok? ==> r.value.0 == clips && clips != []
    ensures clips == [] <==> r == Err(NoClipsSucceeded)
  {
    if clips == [] then Err(NoClipsSucceeded)
    else
      match StitchOf(svc, clips)
      case Err(m) =>
        assert ("Stitching failed: " + m)[0] != NoClipsSucceeded[0];
        Err("Stitching failed: " + m)
      case Ok(u) => Ok((clips, u))
  }

  /** Whether the run gets as far as the clip loop. */
  predicate ReachesLoop(svc: NarrativeServices, themeId: string, withinBudget: bool) {
    svc.networkOk && svc.configured && withinBudget && GetNarrativePrompts(themeId).Ok?
  }

  /** A denied budget fails the run before the prompts are looked up, so an
      unknown theme is then reported as over budget. */
  lemma BudgetCheckedBeforeTheme(svc: NarrativeServices, themeId: string, imageUri: string)
    requires ClocksAdvance(svc) && svc.networkOk && svc.configured
    ensures ServiceRun(svc, themeId, imageUri, false) == Err(BudgetExceeded)
    ensures ServiceRun(svc, "superhero", imageUri, true) == Err(InvalidTheme)
  {
    SuperheroHasNoNarrativePrompts();
  }

  /** After both clips, none was stored exactly when both numbers failed. */
  lemma NoClipsIffBothFailed(svc: NarrativeServices, st: LoopState)
    requires Accounted(svc, st, 2)
    ensures st.clips == [] <==> 1 in st.failed && 2 in st.failed
  {
    if st.clips == [] {
      assert st.failed[0] < st.failed[1];
      assert st.failed[0] == 1 && st.failed[1] == 2;
    }
  }

  /** The run fails for want of clips exactly when it reaches the loop and
      both clips fail; one failing clip is tolerated. */
  lemma NoClipsOnlyWhenBothFail(svc: NarrativeServices, themeId: string, imageUri: string, withinBudget: bool)
    requires ClocksAdvance(svc)
    ensures ServiceRun(svc, themeId, imageUri, withinBudget) == Err(NoClipsSucceeded)
            <==> ReachesLoop(svc, themeId, withinBudget)
                 && ClipUrlAt(svc, GetNarrativePrompts(themeId).value, imageUri, 0).Err?
                 && ClipUrlAt(svc, GetNarrativePrompts(themeId).value, imageUri, 1).Err?
  {
    if ReachesLoop(svc, themeId, withinBudget) {
      var prompts := GetNarrativePrompts(themeId).value;
      LoopAccountsForEveryClip(svc, prompts, imageUri, TotalClips);
      var st := LoopUpTo(svc, prompts, imageUri, TotalClips);
      NoClipsIffBothFailed(svc, st);
      assert ServiceRun(svc, themeId, imageUri, withinBudget) == StitchRun(svc, st.clips);
    } else {
      assert ServiceRun(svc, themeId, imageUri, withinBudget).Err?;
      assert ServiceRun(svc, themeId, imageUri, withinBudget).error in
        {NetworkConnectionError, ApiConfigError, BudgetExceeded, InvalidTheme};
    }
  }

  /** The text of the 'extracting' update for clip number `n`. */
  function ExtractingMessage(i: nat): string {
    if i < 1 then "Analyzing scene " + Strings.NatToString(i + 1) + "..."
    else "Finalizing clip " + Strings.NatToString(i + 1) + "..."
  }

  /** Steps 1 and 2 for clip `i` (from 0): prepare the input image, create
      the generation task, poll it and fetch the URL. */
  method GenerateOneClip(svc: NarrativeServices, prompt: string, seed: Seed, imageUri: string, i: nat)
    returns (videoUrl: Result<string>)
    requires ClockAdvances(ScriptOf(svc, i))
    ensures videoUrl == ClipUrl(svc, prompt, seed, imageUri, i)
    ensures videoUrl.Ok? ==> videoUrl.value != ""
  {
    var imageDataUri := SeedDataUri(svc, seed, imageUri);
    if imageDataUri.Err? {
      return Err(imageDataUri.error);
    }
    var taskId := TaskIdFrom(TaskOf(svc, prompt, imageDataUri.value));
    if taskId.Err? {
      return Err(taskId.error);
    }
    var fileId, _ := PollForFile(taskId.value, ScriptOf(svc, i));
    if fileId.Err? {
      return Err(fileId.error);
    }
    videoUrl := DownloadUrlFrom(VideoOf(svc, fileId.value));
  }

  /** Step 3 and the bookkeeping for clip `i` once its URL outcome is known:
      a generated clip is charged and reports 'extracting'; the seed, the
      clip list and the failed list move as `StepClip` says. */
  method FinishClip(svc: NarrativeServices, i: nat, seed: Seed, clips: seq<VideoStitcher.ClipInput>,
                    failed: seq<int>, videoUrl: Result<string>, reporter: StepReporter, ledger: CostTracker.CostLedger)
    returns (seed': Seed, clips': seq<VideoStitcher.ClipInput>, failed': seq<int>)
    requires reporter.Valid()
    modifies reporter, ledger
    ensures LoopState(seed', clips', failed') == StepClip(svc, i, LoopState(seed, clips, failed), videoUrl)
    ensures reporter.Valid()
    ensures |reporter.emitted| == |old(reporter.emitted)| + (if videoUrl.Ok? then 1 else 0)
    ensures videoUrl.Ok? ==> |clips'| == |clips| + 1
    ensures videoUrl.Err? ==> |clips'| == |clips|
    ensures videoUrl.Ok? && svc.ledgerWriteOk ==>
              CostTracker.ReadAccumulatedCost(ledger.file)
              == CostTracker.ReadAccumulatedCost(old(ledger.file)) + CostTracker.CallCost(EstimatedVideoDurationSeconds)
    ensures videoUrl.Err? || !svc.ledgerWriteOk ==> ledger.file == old(ledger.file)
  {
    seed', clips', failed' := seed, clips, failed;
    if videoUrl.Ok? {
      ledger.RecordApiCallCost(EstimatedVideoDurationSeconds, svc.ledgerWriteOk);
      reporter.UpdateProgress(Extracting, Some(i + 1), ExtractingMessage(i));
      var extraction := ExtractionOf(svc, videoUrl.value);
      if extraction.Ok? {
        clips' := clips + [VideoStitcher.ClipInput(videoUrl.value, extraction.value.durationSeconds)];
        if i < 1 {
          seed' := Frame(extraction.value.base64DataUri);
        }
      } else {
        clips' := clips + [VideoStitcher.ClipInput(videoUrl.value, EstimatedVideoDurationSeconds)];
        if i < 1 {
          seed' := Original;
        }
      }
    } else {
      failed' := failed + [i + 1];
      if i < 1 {
        seed' := Original;
      }
    }
  }

  /** `n` charges of `cost`, one after the other. */
  function Charges(n: nat, cost: real): real {
    if n == 0 then 0.0 else Charges(n - 1, cost) + cost
  }

  /** `n` charges cost `n` times as much as one. */
  lemma {:induction false} ChargesAreProduct(n: nat, cost: real)
    ensures Charges(n, cost) == (n as real) * cost
  {
    if n > 0 {
      ChargesAreProduct(n - 1, cost);
      assert ((n - 1) as real) * cost + cost == (n as real) * cost;
    }
  }

  /** The clip loop of `generateNarrativeVideo`. Each clip reports
      'generating'; a failed clip is only noted and the loop goes on. */
  method GenerateClipsInTurn(svc: NarrativeServices, prompts: seq<string>, imageUri: string,
                             reporter: StepReporter, ledger: CostTracker.CostLedger)
    returns (seed: Seed, clips: seq<VideoStitcher.ClipInput>, failed: seq<int>)
    requires |prompts| >= TotalClips && ClocksAdvance(svc)
    requires reporter.Valid()
    modifies reporter, ledger
    ensures LoopState(seed, clips, failed) == LoopUpTo(svc, prompts, imageUri, TotalClips)
    ensures reporter.Valid() && |reporter.emitted| == |old(reporter.emitted)| + TotalClips + |clips|
    ensures svc.ledgerWriteOk ==>
              CostTracker.ReadAccumulatedCost(ledger.file)
              == CostTracker.ReadAccumulatedCost(old(ledger.file))
                 + Charges(|clips|, CostTracker.CallCost(EstimatedVideoDurationSeconds))
    ensures !svc.ledgerWriteOk ==> ledger.file == old(ledger.file)
  {
    var callCost := CostTracker.CallCost(EstimatedVideoDurationSeconds);
    seed, clips, failed := Original, [], [];
    var i := 0;
    while i < TotalClips
      invariant 0 <= i <= TotalClips
      invariant LoopState(seed, clips, failed) == LoopUpTo(svc, prompts, imageUri, i)
      invariant reporter.Valid() && |reporter.emitted| == |old(reporter.emitted)| + i + |clips|
      invariant svc.ledgerWriteOk ==>
                  CostTracker.ReadAccumulatedCost(ledger.file)
                  == CostTracker.ReadAccumulatedCost(old(ledger.file)) + Charges(|clips|, callCost)
      invariant !svc.ledgerWriteOk ==> ledger.file == old(ledger.file)
    {
      reporter.UpdateProgress(Generating, Some(i + 1), "Generating clip " + Strings.NatToString(i + 1) + " of 2...");
      var videoUrl := GenerateOneClip(svc, prompts[i], seed, imageUri, i);
      seed, clips, failed := FinishClip(svc, i, seed, clips, failed, videoUrl, reporter, ledger);
      i := i + 1;
    }
  }

  /** Records `rs` are updates 1, 2, ... with their step progress. */
  predicate Stepped(rs: seq<StepProgress>) {
    forall k :: 0 <= k < |rs| ==> rs[k].stage != Error && rs[k].overallProgress == StepFraction(k + 1)
  }

  /** The error record put after the updates keeps them as they were and
      repeats the last progress. */
  lemma ErrorAfterUpdates(rs: seq<StepProgress>, e: StepProgress)
    requires Stepped(rs)
    requires e.overallProgress == if rs == [] then 0.0 else rs[|rs| - 1].overallProgress
    ensures var events := rs + [e];
            && (forall k :: 0 <= k < |events| - 1 ==>
                  events[k].stage != Error && events[k].overallProgress == StepFraction(k + 1))
            && events[|events| - 1] == e
            && e.overallProgress == if |events| == 1 then 0.0 else events[|events| - 2].overallProgress
  {
    var events := rs + [e];
    assert forall k :: 0 <= k < |events| - 1 ==> events[k] == rs[k];
  }

  /** The shape every list of records has: updates with their step
      progress, then on failure one error record that repeats the last
      progress and carries the message. */
  predicate Trail(events: seq<StepProgress>, result: NarrativeGenerator.NarrativeGenerationResult) {
    && events != []
    && (forall k :: 0 <= k < |events| - 1 ==>
          events[k].stage != Error && events[k].overallProgress == StepFraction(k + 1))
    && (result.success ==>
          |events| == 5 + |result.videoUrls|
          && events[|events| - 1] == StepProgress(Complete, None, Some(TotalClips), 1.0, Some("Premiere ready!")))
    && (!result.success ==>
          events[|events| - 1].stage == Error && events[|events| - 1].message == result.error
          && events[|events| - 1].overallProgress
             == if |events| == 1 then 0.0 else events[|events| - 2].overallProgress)
  }

  /** The `catch` block: the error record follows the updates made so far. */
  method Fail(reporter: StepReporter, failure: string)
    returns (result: NarrativeGenerator.NarrativeGenerationResult, events: seq<StepProgress>)
    requires reporter.Valid()
    ensures result == NarrativeGenerator.ResultOf(Err(failure))
    ensures events == reporter.emitted + [reporter.ErrorRecord(NarrativeGenerator.ErrorText(failure))]
    ensures Trail(events, result)
  {
    var errorMessage := NarrativeGenerator.ErrorText(failure);
    assert Stepped(reporter.emitted);
    ErrorAfterUpdates(reporter.emitted, reporter.ErrorRecord(errorMessage));
    events := reporter.emitted + [reporter.ErrorRecord(errorMessage)];
    result := NarrativeGenerator.NarrativeGenerationResult(false, [], None, Some(errorMessage));
  }

  /** Stitching and the final update, after the loop stored `clips`. */
  method StitchAndFinish(svc: NarrativeServices, clips: seq<VideoStitcher.ClipInput>, reporter: StepReporter)
    returns (result: NarrativeGenerator.NarrativeGenerationResult, events: seq<StepProgress>)
    requires reporter.Valid() && |reporter.emitted| == 3 + |clips| && |clips| <= TotalClips
    modifies reporter
    ensures result == NarrativeGenerator.ResultOf(StitchRun(svc, clips))
    ensures Trail(events, result)
  {
    if clips == [] {
      result, events := Fail(reporter, NoClipsSucceeded);
      return;
    }
    reporter.UpdateProgress(Stitching, None, "Editing the final cut...");
    var finalStitchedUri := StitchOf(svc, clips);
    if finalStitchedUri.Err? {
      result, events := Fail(reporter, "Stitching failed: " + finalStitchedUri.error);
      return;
    }
    reporter.UpdateProgress(Complete, None, "Premiere ready!");
    events := reporter.emitted;
    assert Stepped(events);
    result := NarrativeGenerator.NarrativeGenerationResult(
      true, NarrativeGenerator.Uris(clips), Some(finalStitchedUri.value), None);
  }

  /** Everything after an approved budget check. */
  method RunApproved(imageUri: string, themeId: string, svc: NarrativeServices,
                     reporter: StepReporter, ledger: CostTracker.CostLedger)
    returns (result: NarrativeGenerator.NarrativeGenerationResult, events: seq<StepProgress>)
    requires ClocksAdvance(svc) && svc.networkOk && svc.configured
    requires reporter.Valid() && reporter.emitted == []
    modifies reporter, ledger
    ensures result == NarrativeGenerator.ResultOf(ServiceRun(svc, themeId, imageUri, true))
    ensures Trail(events, result)
    ensures !ReachesLoop(svc, themeId, true) || !svc.ledgerWriteOk ==> ledger.file == old(ledger.file)
    ensures ReachesLoop(svc, themeId, true) && svc.ledgerWriteOk ==>
              CostTracker.ReadAccumulatedCost(ledger.file)
              == CostTracker.ReadAccumulatedCost(old(ledger.file))
                 + Charges(|LoopUpTo(svc, GetNarrativePrompts(themeId).value, imageUri, TotalClips).clips|,
                           CostTracker.CallCost(EstimatedVideoDurationSeconds))
  {
    reporter.UpdateProgress(Initializing, None, "Preparing your pet's debut...");
    var narrativePrompts := GetNarrativePrompts(themeId);
    if narrativePrompts.Err? {
      result, events := Fail(reporter, narrativePrompts.error);
      return;
    }
    var seed, videoClipData, failedClips :=
      GenerateClipsInTurn(svc, narrativePrompts.value, imageUri, reporter, ledger);
    LoopAccountsForEveryClip(svc, narrativePrompts.value, imageUri, TotalClips);
    result, events := StitchAndFinish(svc, videoClipData, reporter);
  }

  /** `generateNarrativeVideo`. `events` lists the records passed to
      `onProgress`. The budget for five 10-second clips is checked before
      any record; the `k`-th update reports `min(1, k / 5)`; the error record
      repeats the last progress; spend is recorded once per generated clip. */
  method GenerateNarrativeVideo(imageUri: string, themeId: string, svc: NarrativeServices,
                                ledger: CostTracker.CostLedger)
    returns (result: NarrativeGenerator.NarrativeGenerationResult, events: seq<StepProgress>)
    requires ClocksAdvance(svc)
    modifies ledger
    ensures var budget := CostTracker.WithinBudget(old(ledger.file), 5.0 * EstimatedVideoDurationSeconds);
            && result == NarrativeGenerator.ResultOf(ServiceRun(svc, themeId, imageUri, budget))
            && (svc.networkOk && svc.configured && !budget ==>
                  events == [StepProgress(Error, None, None, 0.0, Some(BudgetExceeded))])
            && (!ReachesLoop(svc, themeId, budget) || !svc.ledgerWriteOk ==> ledger.file == old(ledger.file))
            && (ReachesLoop(svc, themeId, budget) && svc.ledgerWriteOk ==>
                  CostTracker.ReadAccumulatedCost(ledger.file)
                  == CostTracker.ReadAccumulatedCost(old(ledger.file))
                     + Charges(|LoopUpTo(svc, GetNarrativePrompts(themeId).value, imageUri, TotalClips).clips|,
                               CostTracker.CallCost(EstimatedVideoDurationSeconds)))
    ensures Trail(events, result)
  {
    var reporter := new StepReporter();
    if !svc.networkOk {
      result, events := Fail(reporter, NetworkConnectionError);
      return;
    }
    if !svc.configured {
      result, events := Fail(reporter, ApiConfigError);
      return;
    }
    var canAfford := ledger.CanMakeApiCall(5.0 * EstimatedVideoDurationSeconds);
    if !canAfford {
      result, events := Fail(reporter, BudgetExceeded);
      return;
    }
    result, events := RunApproved(imageUri, themeId, svc, reporter, ledger);
  }

  /** A successful run stitched one or two clips, each with a non-empty URL
      and its measured or estimated duration. */
  lemma ServiceSuccessHasClips(svc: NarrativeServices, themeId: string, imageUri: string, withinBudget: bool)
    requires ClocksAdvance(svc) && ServiceRun(svc, themeId, imageUri, withinBudget).Ok?
    ensures var clips := ServiceRun(svc, themeId, imageUri, withinBudget).value.0;
            && 1 <= |clips| <= TotalClips
            && forall j :: 0 <= j < |clips| ==>
                 clips[j].uri != "" && clips[j].duration == MeasuredOrEstimate(ExtractionOf(svc, clips[j].uri))
  {
    var prompts := GetNarrativePrompts(themeId).value;
    LoopAccountsForEveryClip(svc, prompts, imageUri, TotalClips);
    assert ServiceRun(svc, themeId, imageUri, withinBudget) == StitchRun(svc, LoopUpTo(svc, prompts, imageUri, TotalClips).clips);
  }

  /** With five steps planned but five plus one per stored clip made, a
      successful run already reports 1 at the stitching record; the first
      record reports 0.2. */
  lemma SuccessReachesOneBeforeComplete(events: seq<StepProgress>, result: NarrativeGenerator.NarrativeGenerationResult)
    requires Trail(events, result) && result.success && result.videoUrls != []
    ensures events[0].overallProgress == 0.2
    ensures events[|events| - 2].overallProgress == 1.0
  {
    assert events[|events| - 2].overallProgress == StepFraction(|events| - 1);
  }
}
