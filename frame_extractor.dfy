/** `getLastFrameFromUrlAsBase64`: download a clip to a temporary file, read
    its duration through a sound object, take a thumbnail 100 ms before the
    end, read it back as Base64, and delete the temporary files.

    The platform (file system, audio loader, thumbnail generator, clock) is
    the datatype `Platform` of answers each call gives. The device state the
    run changes, the files on disk and the sound objects not yet unloaded,
    is the class `Device`. A JavaScript `null` or empty string local is the
    empty string here: the source only tests those locals for truthiness. */
module FrameExtractor {
  import opened Wrappers
  import Strings
  import JsMath

  const DownloadFailed: string := "Failed to download video for frame extraction."
  const LoadVideoFailed: string := "Failed to load video/audio metadata for duration."
  const ThumbnailFailed: string := "Failed to generate thumbnail from video."
  const FileReadFailed: string := "Failed to read thumbnail file as Base64."
  const UnknownFailure: string := "An unknown error occurred during frame extraction."

  const NotLoaded: string := "Audio metadata status was not loaded."
  const NoValidDuration: string := "Could not determine valid video duration from metadata."
  const JpegDataUriHeader: string := "data:image/jpeg;base64,"

  /** `FrameExtractionResult` */
  datatype FrameExtraction = FrameExtraction(base64DataUri: string, durationSeconds: real)

  /** `FileSystem.downloadAsync`: it throws, or it writes the target file and
      reports an HTTP status. */
  datatype DownloadReply = DownloadThrew(message: string) | Downloaded(status: int)

  /** `Audio.Sound.createAsync`: it throws, or it creates a sound whose status
      is loaded or not; `durationMillis` is None when the status has no
      numeric duration. */
  datatype SoundReply =
    | CreateThrew(message: string)
    | SoundCreated(isLoaded: bool, durationMillis: Option<real>)

  /** `VideoThumbnails.getThumbnailAsync`: it throws, or it writes an image
      and returns its uri. */
  datatype ThumbnailReply = ThumbnailThrew(message: string) | ThumbnailMade(uri: string)

  datatype Platform = Platform(
    cacheDirectory: string,
    /** `Date.now()` */
    now: nat,
    /** the message `makeDirectoryAsync` throws, if it throws */
    makeDirectory: Option<string>,
    /** (url, target path) */
    download: (string, string) -> DownloadReply,
    createSound: string -> SoundReply,
    /** the message `unloadAsync` throws, if it throws */
    unloadError: Option<string>,
    /** (video path, time in ms) */
    thumbnail: (string, real) -> ThumbnailReply,
    readBase64: string -> Result<string>,
    /** whether `deleteAsync` of a path returns instead of throwing */
    deletes: string -> bool)

  function DownloadOf(p: Platform, url: string, path: string): DownloadReply { p.download(url, path) }
  function SoundOf(p: Platform, path: string): SoundReply { p.createSound(path) }
  function ThumbnailOf(p: Platform, path: string, timeMs: real): ThumbnailReply { p.thumbnail(path, timeMs) }
  function ReadOf(p: Platform, uri: string): Result<string> { p.readBase64(uri) }
  function DeletesOf(p: Platform, path: string): bool { p.deletes(path) }

  /** `cacheDirectory + 'frameExtraction/' + Date.now() + '.mp4'` */
  function VideoPath(p: Platform): (path: string)
    ensures path != ""
    ensures Strings.EndsWith(path, ".mp4")
  {
    p.cacheDirectory + "frameExtraction/" + Strings.NatToString(p.now) + ".mp4"
  }

  /** `Math.max(0, durationMillis - 100)` */
  function FrameTime(durationMillis: real): real {
    JsMath.Max(0.0, durationMillis - 100.0)
  }

  /** The frame is taken 100 ms before the end, or at the start of a clip
      shorter than that; either way inside the clip. */
  lemma FrameTimeNearEnd(durationMillis: real)
    requires durationMillis > 0.0
    ensures 0.0 <= FrameTime(durationMillis) < durationMillis
    ensures durationMillis - FrameTime(durationMillis) <= 100.0
    ensures durationMillis >= 100.0 ==> FrameTime(durationMillis) == durationMillis - 100.0
    ensures durationMillis <= 100.0 ==> FrameTime(durationMillis) == 0.0
  {
  }

  /** The inner try/catch/finally that reads the duration: the load error is
      re-thrown with the LOAD_VIDEO_FAILED prefix, and the sound, once
      created, is unloaded; an unload that throws replaces the outcome. */
  function LoadDuration(reply: SoundReply, unloadError: Option<string>): (r: Result<real>)
    ensures r.Ok? <==> (&& reply.SoundCreated? && reply.isLoaded && reply.durationMillis.Some?
                        && reply.durationMillis.value > 0.0 && unloadError.None?)
    ensures r.Ok? ==> r.value == reply.durationMillis.value && r.value > 0.0
    ensures r.Err? && (reply.CreateThrew? || unloadError.None?) ==> Strings.StartsWith(r.error, LoadVideoFailed)
    ensures reply.SoundCreated? && unloadError.Some? ==> r == Err(unloadError.value)
  {
    match reply
    case CreateThrew(m) => Err(LoadVideoFailed + ": " + m)
    case SoundCreated(isLoaded, d) =>
      var inner :=
        if !isLoaded then Err(LoadVideoFailed + ": " + NotLoaded)
        else if d.None? || d.value <= 0.0 then Err(LoadVideoFailed + ": " + NoValidDuration)
        else Ok(d.value);
      if unloadError.Some? then Err(unloadError.value) else inner
  }

  /** The locals when the outer try block returns or throws, the files its
      steps wrote and whether a sound object was created. */
  datatype Attempt = Attempt(
    outcome: Result<FrameExtraction>,
    tempVideoUri: string,
    tempThumbnailUri: string,
    base64Thumbnail: string,
    soundCreated: bool,
    created: set<string>)

  /** The outer try block, step by step. */
  function TryBlock(p: Platform, videoUrl: string): Attempt {
    if p.makeDirectory.Some? then Attempt(Err(p.makeDirectory.value), "", "", "", false, {})
    else
      var video := VideoPath(p);
      match DownloadOf(p, videoUrl, video)
      case DownloadThrew(m) => Attempt(Err(m), video, "", "", false, {})
      case Downloaded(status) =>
        if status != 200 then Attempt(Err(DownloadFailed), video, "", "", false, {video})
        else
          var reply := SoundOf(p, video);
          match LoadDuration(reply, p.unloadError)
          case Err(m) => Attempt(Err(m), video, "", "", reply.SoundCreated?, {video})
          case Ok(d) =>
            match ThumbnailOf(p, video, FrameTime(d))
            case ThumbnailThrew(m) => Attempt(Err(m), video, "", "", true, {video})
            case ThumbnailMade(thumb) =>
              var written := if thumb != "" then {video, thumb} else {video};
              match ReadOf(p, thumb)
              case Err(m) => Attempt(Err(m), video, thumb, "", true, written)
              case Ok(b64) =>
                Attempt(Ok(FrameExtraction(JpegDataUriHeader + b64, d / 1000.0)), video, thumb, b64, true, written)
  }

  /** The branches of the outer catch. */
  datatype FailureKind = Rethrown | ThumbnailKind | FileReadKind | UnknownKind

  /** Errors already carrying the download or load prefix pass through; the
      others are classified by which locals are set. */
  function KindOf(message: string, tempVideoUri: string, tempThumbnailUri: string,
                  base64Thumbnail: string): FailureKind
  {
    if Strings.StartsWith(message, DownloadFailed) || Strings.StartsWith(message, LoadVideoFailed) then Rethrown
    else if tempVideoUri != "" && tempThumbnailUri == "" then ThumbnailKind
    else if tempThumbnailUri != "" && base64Thumbnail == "" then FileReadKind
    else UnknownKind
  }

  /** The outer catch: the message the call rejects with. */
  function Classify(message: string, tempVideoUri: string, tempThumbnailUri: string,
                    base64Thumbnail: string): string
  {
    match KindOf(message, tempVideoUri, tempThumbnailUri, base64Thumbnail)
    case Rethrown => message
    case ThumbnailKind => ThumbnailFailed + ": " + message
    case FileReadKind => FileReadFailed + ": " + message
    case UnknownKind => UnknownFailure + ": " + (if message != "" then message else "Error")
  }

  /** What the call resolves to, or the message it rejects with. */
  function Extract(p: Platform, videoUrl: string): Result<FrameExtraction> {
    var a := TryBlock(p, videoUrl);
    if a.outcome.Ok? then a.outcome
    else Err(Classify(a.outcome.error, a.tempVideoUri, a.tempThumbnailUri, a.base64Thumbnail))
  }

  /** The outer finally: the thumbnail, then the video, inside one try whose
      errors are swallowed, so a failed thumbnail delete skips the video. */
  function Cleanup(p: Platform, files: set<string>, tempVideoUri: string, tempThumbnailUri: string): set<string> {
    if tempThumbnailUri != "" && !DeletesOf(p, tempThumbnailUri) then files
    else
      var afterThumbnail := if tempThumbnailUri != "" then files - {tempThumbnailUri} else files;
      if tempVideoUri != "" && DeletesOf(p, tempVideoUri) then afterThumbnail - {tempVideoUri}
      else afterThumbnail
  }

  /** The device state the call changes. */
  class Device {
    var files: set<string>
    /** sound objects created and not yet unloaded */
    var openSounds: nat

    constructor (files: set<string>)
      ensures this.files == files && openSounds == 0
    {
      this.files := files;
      openSounds := 0;
    }
  }

  method GetLastFrameFromUrlAsBase64(videoUrl: string, p: Platform, device: Device)
    returns (r: Result<FrameExtraction>)
    modifies device
    ensures r == Extract(p, videoUrl)
    ensures var a := TryBlock(p, videoUrl);
            device.files == Cleanup(p, old(device.files) + a.created, a.tempVideoUri, a.tempThumbnailUri)
    ensures var a := TryBlock(p, videoUrl);
            device.openSounds == old(device.openSounds) + (if a.soundCreated && p.unloadError.Some? then 1 else 0)
  {
    var tempVideoUri := "";
    var tempThumbnailUri := "";
    var base64Thumbnail := "";
    var soundCreated := false;
    var durationSeconds := 0.0;
    ghost var created: set<string> := {};
    var thrown: Option<string> := None;
    r := Err("");

    // the outer try block
    if p.makeDirectory.Some? {
      thrown := p.makeDirectory;
    } else {
      tempVideoUri := VideoPath(p);
      var download := DownloadOf(p, videoUrl, tempVideoUri);
      if download.DownloadThrew? {
        thrown := Some(download.message);
      } else {
        device.files := device.files + {tempVideoUri};
        created := {tempVideoUri};
        if download.status != 200 {
          thrown := Some(DownloadFailed);
        } else {
          var durationMillis: Option<real> := None;
          var loadError: Option<string> := None;
          var reply := SoundOf(p, tempVideoUri);
          if reply.CreateThrew? {
            loadError := Some(LoadVideoFailed + ": " + reply.message);
          } else {
            soundCreated := true;
            device.openSounds := device.openSounds + 1;
            if reply.isLoaded {
              durationMillis := reply.durationMillis;
              if durationMillis.Some? && durationMillis.value > 0.0 {
                durationSeconds := durationMillis.value / 1000.0;
              } else {
                loadError := Some(LoadVideoFailed + ": " + NoValidDuration);
              }
            } else {
              loadError := Some(LoadVideoFailed + ": " + NotLoaded);
            }
          }
          // the inner finally
          if soundCreated {
            if p.unloadError.Some? {
              loadError := p.unloadError;
            } else {
              device.openSounds := device.openSounds - 1;
            }
          }
          if loadError.Some? {
            thrown := loadError;
          } else {
            var timeMs := JsMath.Max(0.0, durationMillis.value - 100.0);
            var thumbnail := ThumbnailOf(p, tempVideoUri, timeMs);
            if thumbnail.ThumbnailThrew? {
              thrown := Some(thumbnail.message);
            } else {
              tempThumbnailUri := thumbnail.uri;
              if tempThumbnailUri != "" {
                device.files := device.files + {tempThumbnailUri};
                created := created + {tempThumbnailUri};
              }
              var read := ReadOf(p, tempThumbnailUri);
              if read.Err? {
                thrown := Some(read.error);
              } else {
                base64Thumbnail := read.value;
                r := Ok(FrameExtraction(JpegDataUriHeader + base64Thumbnail, durationSeconds));
              }
            }
          }
        }
      }
    }

    // the outer catch
    if thrown.Some? {
      r := Err(Classify(thrown.value, tempVideoUri, tempThumbnailUri, base64Thumbnail));
    }

    // the outer finally
    if tempThumbnailUri != "" && !DeletesOf(p, tempThumbnailUri) {
    } else {
      if tempThumbnailUri != "" {
        device.files := device.files - {tempThumbnailUri};
      }
      if tempVideoUri != "" && DeletesOf(p, tempVideoUri) {
        device.files := device.files - {tempVideoUri};
      }
    }
  }

  /** A download that completes with a status other than 200 fails with
      exactly DOWNLOAD_FAILED. */
  lemma DownloadStatusOtherThan200Fails(p: Platform, videoUrl: string)
    requires p.makeDirectory.None?
    requires DownloadOf(p, videoUrl, VideoPath(p)).Downloaded?
    requires DownloadOf(p, videoUrl, VideoPath(p)).status != 200
    ensures Extract(p, videoUrl) == Err(DownloadFailed)
  {
    assert Strings.StartsWith(DownloadFailed, DownloadFailed);
  }

  /** After a good download, a load that throws, a status that is not
      loaded, or a missing or non-positive duration fails with a message
      prefixed LOAD_VIDEO_FAILED, provided unloading the sound (when one was
      created) does not itself throw. */
  lemma LoadFailuresArePrefixed(p: Platform, videoUrl: string)
    requires p.makeDirectory.None?
    requires DownloadOf(p, videoUrl, VideoPath(p)) == Downloaded(200)
    requires var reply := SoundOf(p, VideoPath(p));
             || reply.CreateThrew?
             || (p.unloadError.None? && (!reply.isLoaded || reply.durationMillis.None? || reply.durationMillis.value <= 0.0))
    ensures Extract(p, videoUrl).Err?
    ensures Strings.StartsWith(Extract(p, videoUrl).error, LoadVideoFailed)
  {
    var reply := SoundOf(p, VideoPath(p));
    assert LoadDuration(reply, p.unloadError).Err?;
  }

  /** The call succeeds exactly when every step does: the directory is made,
      the download answers 200, the sound loads with a positive duration d
      and unloads, a thumbnail is taken at max(0, d - 100) and read back.
      The result is then the JPEG data URI of the text read and d / 1000
      seconds, a positive number. */
  lemma SuccessIffEveryStepSucceeds(p: Platform, videoUrl: string)
    ensures var video := VideoPath(p);
            var reply := SoundOf(p, video);
            Extract(p, videoUrl).Ok? <==>
              && p.makeDirectory.None?
              && DownloadOf(p, videoUrl, video) == Downloaded(200)
              && reply.SoundCreated? && reply.isLoaded && reply.durationMillis.Some?
              && reply.durationMillis.value > 0.0
              && p.unloadError.None?
              && ThumbnailOf(p, video, FrameTime(reply.durationMillis.value)).ThumbnailMade?
              && ReadOf(p, ThumbnailOf(p, video, FrameTime(reply.durationMillis.value)).uri).Ok?
    ensures var video := VideoPath(p);
            Extract(p, videoUrl).Ok? ==>
              var d := SoundOf(p, video).durationMillis.value;
              && Extract(p, videoUrl).value
                 == FrameExtraction(JpegDataUriHeader + ReadOf(p, ThumbnailOf(p, video, FrameTime(d)).uri).value,
                                    d / 1000.0)
              && Extract(p, videoUrl).value.durationSeconds > 0.0
  {
    var video := VideoPath(p);
    var reply := SoundOf(p, video);
    if Extract(p, videoUrl).Ok? {
      assert TryBlock(p, videoUrl).outcome.Ok?;
      assert LoadDuration(reply, p.unloadError).Ok?;
    }
  }

  /** A download that throws happens once the video path is set and before
      any thumbnail exists, so it is reported as THUMBNAIL_FAILED. */
  lemma DownloadThrowIsReportedAsThumbnailFailure(p: Platform, videoUrl: string)
    requires p.makeDirectory.None?
    requires DownloadOf(p, videoUrl, VideoPath(p)).DownloadThrew?
    requires var m := DownloadOf(p, videoUrl, VideoPath(p)).message;
             !Strings.StartsWith(m, DownloadFailed) && !Strings.StartsWith(m, LoadVideoFailed)
    ensures Extract(p, videoUrl) == Err(ThumbnailFailed + ": " + DownloadOf(p, videoUrl, VideoPath(p)).message)
  {
  }

  /** A thumbnail generator that throws is reported as THUMBNAIL_FAILED. */
  lemma ThumbnailThrowIsThumbnailFailure(p: Platform, videoUrl: string)
    requires p.makeDirectory.None?
    requires DownloadOf(p, videoUrl, VideoPath(p)) == Downloaded(200)
    requires var reply := SoundOf(p, VideoPath(p));
             LoadDuration(reply, p.unloadError).Ok?
    requires var d := LoadDuration(SoundOf(p, VideoPath(p)), p.unloadError).value;
             ThumbnailOf(p, VideoPath(p), FrameTime(d)).ThumbnailThrew?
    requires var d := LoadDuration(SoundOf(p, VideoPath(p)), p.unloadError).value;
             var m := ThumbnailOf(p, VideoPath(p), FrameTime(d)).message;
             !Strings.StartsWith(m, DownloadFailed) && !Strings.StartsWith(m, LoadVideoFailed)
    ensures var d := LoadDuration(SoundOf(p, VideoPath(p)), p.unloadError).value;
            Extract(p, videoUrl) == Err(ThumbnailFailed + ": " + ThumbnailOf(p, VideoPath(p), FrameTime(d)).message)
  {
  }

  /** A thumbnail that exists but cannot be read is reported as
      FILE_READ_FAILED. */
  lemma ReadFailureIsFileReadFailure(p: Platform, videoUrl: string)
    requires p.makeDirectory.None?
    requires DownloadOf(p, videoUrl, VideoPath(p)) == Downloaded(200)
    requires LoadDuration(SoundOf(p, VideoPath(p)), p.unloadError).Ok?
    requires var d := LoadDuration(SoundOf(p, VideoPath(p)), p.unloadError).value;
             var t := ThumbnailOf(p, VideoPath(p), FrameTime(d));
             t.ThumbnailMade? && t.uri != "" && ReadOf(p, t.uri).Err?
    requires var d := LoadDuration(SoundOf(p, VideoPath(p)), p.unloadError).value;
             var m := ReadOf(p, ThumbnailOf(p, VideoPath(p), FrameTime(d)).uri).error;
             !Strings.StartsWith(m, DownloadFailed) && !Strings.StartsWith(m, LoadVideoFailed)
    ensures var d := LoadDuration(SoundOf(p, VideoPath(p)), p.unloadError).value;
            var m := ReadOf(p, ThumbnailOf(p, VideoPath(p), FrameTime(d)).uri).error;
            Extract(p, videoUrl) == Err(FileReadFailed + ": " + m)
  {
  }

  /** UNKNOWN is reported only when making the temporary directory fails:
      every later failure happens with the video path set, and a failure
      with the thumbnail set leaves the Base64 text unset. */
  lemma UnknownOnlyWhenDirectoryFails(p: Platform, videoUrl: string)
    requires var a := TryBlock(p, videoUrl);
             a.outcome.Err? && KindOf(a.outcome.error, a.tempVideoUri, a.tempThumbnailUri, a.base64Thumbnail) == UnknownKind
    ensures p.makeDirectory.Some?
  {
  }

  /** When making the directory fails, the message is reported as UNKNOWN,
      with the platform's word 'Error' for an empty message. */
  lemma DirectoryFailureIsUnknown(p: Platform, videoUrl: string)
    requires p.makeDirectory.Some?
    requires var m := p.makeDirectory.value;
             !Strings.StartsWith(m, DownloadFailed) && !Strings.StartsWith(m, LoadVideoFailed)
    ensures var m := p.makeDirectory.value;
            Extract(p, videoUrl) == Err(UnknownFailure + ": " + (if m != "" then m else "Error"))
  {
  }

  /** The files a run writes are its temporary video and thumbnail paths,
      and the thumbnail exists only once the video path is set. */
  lemma CreatedFilesAreTheTemporaryPaths(p: Platform, videoUrl: string)
    ensures var a := TryBlock(p, videoUrl);
            && (forall f :: f in a.created ==> f != "" && (f == a.tempVideoUri || f == a.tempThumbnailUri))
            && (a.tempThumbnailUri != "" ==> a.tempVideoUri != "")
  {
  }

  /** When no delete throws, cleanup removes every temporary path that was
      set, and only those. */
  lemma CleanupRemovesEverySetPath(p: Platform, files: set<string>, video: string, thumbnail: string)
    requires video != "" ==> DeletesOf(p, video)
    requires thumbnail != "" ==> DeletesOf(p, thumbnail)
    ensures Cleanup(p, files, video, thumbnail) == files - ({video, thumbnail} - {""})
  {
  }

  /** A thumbnail delete that throws skips the video delete: both files stay. */
  lemma FailedThumbnailDeleteKeepsVideo(p: Platform, files: set<string>, video: string, thumbnail: string)
    requires thumbnail != "" && !DeletesOf(p, thumbnail)
    ensures Cleanup(p, files, video, thumbnail) == files
  {
  }

  /** Whatever path the run takes, with deletes that succeed the device is
      left with the files it had before, minus any file that was already
      sitting at one of the temporary paths. */
  lemma NoFileLeftBehind(p: Platform, videoUrl: string, files: set<string>)
    requires forall f :: DeletesOf(p, f)
    ensures var a := TryBlock(p, videoUrl);
            Cleanup(p, files + a.created, a.tempVideoUri, a.tempThumbnailUri)
            == files - ({a.tempVideoUri, a.tempThumbnailUri} - {""})
  {
  }

  /** Cleanup never changes what the call resolves to or rejects with. */
  lemma ResultIgnoresCleanup(p: Platform, videoUrl: string, deletes: string -> bool)
    ensures Extract(p.(deletes := deletes), videoUrl) == Extract(p, videoUrl)
  {
  }
}
