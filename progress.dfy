/** The weighted progress aggregator of the narrative pipeline
    (`NarrativeProgressTracker`): one stored progress value in [0,1] that
    every `update` overwrites, and an observer callback that receives one
    progress record per update. The callback is modelled by the log
    `emitted` of the records it has been given. */
module Progress {
  import opened Wrappers
  import Strings
  import JsMath

  const InitContribution: real := 0.05
  const GenerationContribution: real := 0.75
  const StitchingContribution: real := 0.20

  datatype Stage = Initializing | Generating | Stitching | Complete | Error {
    /** The stage's literal as the source spells it. */
    function Name(): (n: string)
      ensures n != [] && 'a' <= n[0] <= 'z'
    {
      match this
      case Initializing => "initializing"
      case Generating => "generating"
      case Stitching => "stitching"
      case Complete => "complete"
      case Error => "error"
    }
  }

  /** The record handed to the observer (`GenerationProgress`). */
  datatype GenerationProgress = GenerationProgress(
    stage: Stage,
    currentClip: Option<real>,
    totalClips: Option<real>,
    overallProgress: real,
    message: string)

  /** The value the stage formula yields before clamping; `held` is the
      value stored by the previous update. */
  function RawProgress(stage: Stage, currentClip: Option<real>, totalClips: Option<real>,
                       stageProgress: Option<real>, held: real): real
  {
    match stage
    case Initializing => JsMath.OrZero(stageProgress) * InitContribution
    case Generating =>
      if currentClip.Some? && totalClips.Some? && totalClips.value > 0.0 then
        InitContribution
        + ((currentClip.value - 1.0) / totalClips.value) * GenerationContribution
        + (JsMath.OrZero(stageProgress) / totalClips.value) * GenerationContribution
      else 0.0
    case Stitching => InitContribution + GenerationContribution + JsMath.OrZero(stageProgress) * StitchingContribution
    case Complete => 1.0
    case Error => held
  }

  /** `Math.min(1, Math.max(0, x))` */
  function Clamp(x: real): (r: real)
    ensures 0.0 <= r <= 1.0
    ensures 0.0 <= x <= 1.0 ==> r == x
    ensures x < 0.0 ==> r == 0.0
    ensures x > 1.0 ==> r == 1.0
  {
    if x < 0.0 then 0.0 else if x > 1.0 then 1.0 else x
  }

  /** The value `update` stores. */
  function UpdatedProgress(stage: Stage, currentClip: Option<real>, totalClips: Option<real>,
                           stageProgress: Option<real>, held: real): (p: real)
    ensures 0.0 <= p <= 1.0
    ensures stage == Complete ==> p == 1.0
    ensures stage == Error && 0.0 <= held <= 1.0 ==> p == held
  {
    Clamp(RawProgress(stage, currentClip, totalClips, stageProgress, held))
  }

  function UpperChar(c: char): char {
    if 'a' <= c <= 'z' then (c as int - 32) as char else c
  }

  /** `stage.charAt(0).toUpperCase() + stage.slice(1)` */
  function DefaultMessage(stage: Stage): (m: string)
    ensures |m| == |stage.Name()| && m != []
    ensures 'A' <= m[0] <= 'Z' && Strings.LowerChar(m[0]) == stage.Name()[0]
    ensures m[1..] == stage.Name()[1..]
  {
    var n := stage.Name();
    [UpperChar(n[0])] + n[1..]
  }

  /** `message || <default message>`: an absent or empty message is replaced. */
  function MessageOrDefault(message: Option<string>, stage: Stage): (m: string)
    ensures message.Some? && message.value != "" ==> m == message.value
    ensures message.None? || message.value == "" ==> m == DefaultMessage(stage)
    ensures m != ""
  {
    if message.Some? && message.value != "" then message.value else DefaultMessage(stage)
  }

  class NarrativeProgressTracker {
    var currentProgress: real
    /** Every record passed to the observer callback, oldest first. */
    var emitted: seq<GenerationProgress>

    ghost predicate Valid()
      reads this
    {
      && 0.0 <= currentProgress <= 1.0
      && (emitted != [] ==> emitted[|emitted| - 1].overallProgress == currentProgress)
    }

    constructor ()
      ensures Valid()
      ensures currentProgress == 0.0 && emitted == []
    {
      currentProgress := 0.0;
      emitted := [];
    }

    /** `update(stage, currentClip?, totalClips?, message?, stageProgress?)`:
        stores the clamped stage value and calls the callback exactly once. */
    method Update(stage: Stage, currentClip: Option<real>, totalClips: Option<real>,
                  message: Option<string>, stageProgress: Option<real>)
      requires Valid()
      modifies this
      ensures Valid()
      ensures currentProgress == UpdatedProgress(stage, currentClip, totalClips, stageProgress, old(currentProgress))
      ensures emitted == old(emitted) + [GenerationProgress(stage, currentClip, totalClips,
                                                           currentProgress, MessageOrDefault(message, stage))]
    {
      var calculated := RawProgress(stage, currentClip, totalClips, stageProgress, currentProgress);
      currentProgress := Clamp(calculated);
      emitted := emitted + [GenerationProgress(stage, currentClip, totalClips, currentProgress,
                                               MessageOrDefault(message, stage))];
    }

    /** `getCurrentProgress()` */
    function GetCurrentProgress(): (p: real)
      reads this
      requires Valid()
      ensures 0.0 <= p <= 1.0
      ensures p == currentProgress
    {
      currentProgress
    }
  }

  /** 'initializing' scales the sub-progress by 0.05 and 'stitching' maps it
      to 0.80 + s * 0.20; a missing sub-progress counts as 0. */
  lemma InitializingAndStitchingValues(s: real, held: real)
    requires 0.0 <= s <= 1.0
    ensures UpdatedProgress(Initializing, None, None, Some(s), held) == s * 0.05
    ensures UpdatedProgress(Stitching, None, None, Some(s), held) == 0.80 + s * 0.20
    ensures UpdatedProgress(Initializing, None, None, None, held) == 0.0
    ensures UpdatedProgress(Stitching, None, None, None, held) == 0.80
  {
  }

  /** For clips 1..t and s in [0,1] the 'generating' value lies in [0.05, 0.80]. */
  lemma GeneratingWithinGenerationBand(c: real, t: real, s: real, held: real)
    requires t > 0.0 && 1.0 <= c <= t && 0.0 <= s <= 1.0
    ensures 0.05 <= RawProgress(Generating, Some(c), Some(t), Some(s), held) <= 0.80
    ensures UpdatedProgress(Generating, Some(c), Some(t), Some(s), held)
         == RawProgress(Generating, Some(c), Some(t), Some(s), held)
  {
    assert (c - 1.0) / t + s / t == (c - 1.0 + s) / t;
    DivideAtMostOne(c - 1.0 + s, t);
  }

  lemma DivideAtMostOne(a: real, t: real)
    requires 0.0 <= a <= t && t > 0.0
    ensures 0.0 <= a / t <= 1.0
  {
    assert a / t * t == a;
  }

  /** Clip c finished (s = 1) has the same value as clip c + 1 starting (s = 0). */
  lemma GeneratingClipBoundary(c: real, t: real, held: real)
    requires t > 0.0
    ensures RawProgress(Generating, Some(c), Some(t), Some(1.0), held)
         == RawProgress(Generating, Some(c + 1.0), Some(t), Some(0.0), held)
  {
    assert (c - 1.0) / t + 1.0 / t == c / t;
  }

  /** For a fixed clip the value does not decrease as the sub-progress grows. */
  lemma GeneratingMonotoneInStageProgress(c: real, t: real, s1: real, s2: real, held: real)
    requires t > 0.0 && s1 <= s2
    ensures UpdatedProgress(Generating, Some(c), Some(t), Some(s1), held)
         <= UpdatedProgress(Generating, Some(c), Some(t), Some(s2), held)
  {
    assert s2 / t - s1 / t == (s2 - s1) / t;
  }

  /** Only 'error' reads the held value. */
  lemma GeneratingIgnoresHeld(currentClip: Option<real>, totalClips: Option<real>, s: Option<real>, held: real)
    ensures UpdatedProgress(Generating, currentClip, totalClips, s, held)
         == UpdatedProgress(Generating, currentClip, totalClips, s, 0.0)
  {
  }

  /** Without a numeric clip and a positive total, 'generating' stores 0. */
  lemma GeneratingWithoutClipInfo(currentClip: Option<real>, totalClips: Option<real>,
                                  s: Option<real>, held: real)
    requires currentClip.None? || totalClips.None? || totalClips.value <= 0.0
    ensures UpdatedProgress(Generating, currentClip, totalClips, s, held) == 0.0
  {
  }

  /** Clip 0 of fewer than 15 clips yields a negative raw value, stored as 0. */
  lemma GeneratingClipZeroClamped(t: real, held: real)
    requires 0.0 < t < 15.0
    ensures RawProgress(Generating, Some(0.0), Some(t), Some(0.0), held) < 0.0
    ensures UpdatedProgress(Generating, Some(0.0), Some(t), Some(0.0), held) == 0.0
  {
    assert 1.0 / t - 1.0 / 15.0 == (15.0 - t) / (15.0 * t);
  }

  /** The tracker is not monotone: the orchestrator's 'generating' call for
      clip 0 of 5 right after 'initializing' at 1.0 drops the stored value
      from 0.05 to 0. */
  lemma NotGloballyMonotone()
    ensures UpdatedProgress(Initializing, None, Some(5.0), Some(1.0), 0.005) == 0.05
    ensures UpdatedProgress(Generating, Some(0.0), Some(5.0), Some(0.0), 0.05) == 0.0
  {
    GeneratingClipZeroClamped(5.0, 0.05);
  }

  /** The default messages are the stage names with a capital first letter. */
  lemma DefaultMessages()
    ensures DefaultMessage(Initializing) == "Initializing"
    ensures DefaultMessage(Generating) == "Generating"
    ensures DefaultMessage(Stitching) == "Stitching"
    ensures DefaultMessage(Complete) == "Complete"
    ensures DefaultMessage(Error) == "Error"
  {
  }
}
