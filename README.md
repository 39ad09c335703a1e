# PetFlixAI pipeline core, modelled in Dafny

PetFlixAI turns a photo of a pet into a short themed video. The core of the
app is a pipeline of services:

- `ThemeService` and `referenceImages` hold the theme catalogue: clip prompts and reference pictures.
- `imageUtils` resizes and encodes the pet photo.
- `ViduApiService` calls the Vidu video API. It creates reference-to-video tasks and polls them until they succeed, fail or time out.
- `NarrativeVideoGenerator` and `VideoService` orchestrate the clips.
- `VideoStitcher` joins the clips on the Shotstack editing API.
- `VideoFrameExtractor` takes the last frame of a clip as the seed image of the next clip.
- `CacheService` caches single-clip results.
- `costTracker` keeps a 50 USD budget.
- `ProgressService` reports weighted progress.
- `setupEnv` and `apiKeyValidator` read and check the configuration.
- The playback screen formats times and drives the seek buttons.

This project models each of these as a Dafny module, one file per source
file. Pure logic becomes functions with named results and lemmas. State
that the source updates in place becomes classes whose methods carry
`modifies` clauses and state the new state in full. Examples are the
progress tracker, the cost ledger, the cache, the player, the process
environment and the temporary files of the frame extractor.

Remote services, the file system, the clock and the device API are
parameters of datatypes (oracles). Each oracle is a function from the
request to a reply. A call's outcome cannot depend on anything the source
does not pass to it. Asynchronous calls are modelled as sequential steps
in program order.

Errors are values: `Result<T> = Ok(value) | Err(error)`, with the
message of the JavaScript `Error` as the payload. Numbers are exact
`real`s. `NaN` and floating-point rounding are not modelled.

## Model

| member | source | states |
|---|---|---|
| Progress.Clamp | PetFlixAI/services/ProgressService.ts:40 | The result lies in [0, 1]. It is the input when the input is in [0, 1], 0 below and 1 above. |
| Progress.UpdatedProgress | PetFlixAI/services/ProgressService.ts:18-40 | The stored value always lies in [0, 1]. 'complete' stores 1. 'error' keeps the previously stored value. |
| Progress.DefaultMessage | PetFlixAI/services/ProgressService.ts:47 | The default message has the stage name's length. Its first character is the capital of the name's first letter, and the rest equals the rest of the name. |
| Progress.MessageOrDefault | PetFlixAI/services/ProgressService.ts:47 | A given non-empty message is kept. An absent or empty one is replaced by the default message. The result is never empty. |
| Progress.NarrativeProgressTracker.constructor | PetFlixAI/services/ProgressService.ts:4-9 | A new tracker holds 0 and has emitted nothing. |
| Progress.NarrativeProgressTracker.Update | PetFlixAI/services/ProgressService.ts:11-49 | Stores the clamped stage value, computed from the previous value. Hands exactly one record to the observer: the stage, the clip numbers, the new value and the message or its default. Keeps the invariant that the last record shows the stored value. |
| Progress.NarrativeProgressTracker.GetCurrentProgress | PetFlixAI/services/ProgressService.ts:51-53 | Returns the stored value, which lies in [0, 1]. |
| Progress.InitializingAndStitchingValues | PetFlixAI/services/ProgressService.ts:23-24 | 'initializing' stores s * 0.05. 'stitching' stores 0.80 + s * 0.20. A missing sub-progress counts as 0. |
| Progress.GeneratingWithinGenerationBand | PetFlixAI/services/ProgressService.ts:25-30 | For clip c of t, 1 <= c <= t, and sub-progress in [0, 1], the 'generating' value lies in [0.05, 0.80], so clamping leaves it unchanged. |
| Progress.GeneratingClipBoundary | PetFlixAI/services/ProgressService.ts:28-29 | Clip c at sub-progress 1 has the same value as clip c + 1 at sub-progress 0. |
| Progress.GeneratingMonotoneInStageProgress | PetFlixAI/services/ProgressService.ts:25-30 | For a fixed clip, the stored value does not decrease as the sub-progress grows. |
| Progress.GeneratingIgnoresHeld | PetFlixAI/services/ProgressService.ts:25-37 | The 'generating' value does not depend on the previously stored value. |
| Progress.GeneratingWithoutClipInfo | PetFlixAI/services/ProgressService.ts:25 | Without a clip number, or without a positive total, 'generating' stores 0. |
| Progress.GeneratingClipZeroClamped | PetFlixAI/services/ProgressService.ts:28 | Clip 0 of fewer than 15 clips gives a negative raw value, which is stored as 0. |
| Progress.NotGloballyMonotone | PetFlixAI/services/ProgressService.ts:23-40 | The stored value can drop: 'initializing' at 1.0 stores 0.05, then 'generating' clip 0 of 5 stores 0. |
| Progress.DefaultMessages | PetFlixAI/services/ProgressService.ts:47 | The five default messages are the capitalised stage names. |
| CostTracker.ReadAccumulatedCost | PetFlixAI/utils/costTracker.ts:12-27 | A missing file, an unreadable file or an absent field reads as 0. Otherwise the stored value is read. |
| CostTracker.Units | PetFlixAI/utils/costTracker.ts:46 | At least one unit. More than one unit only for the number of started 6-second blocks. |
| CostTracker.CallCost | PetFlixAI/utils/costTracker.ts:43-48 | No contract. It is the unit count times 0.43 USD; `UnitsBand`, `CallCostAtLeastOneUnit`, `CallCostMonotone` and `EstimatedCosts` state its properties. |
| CostTracker.UnitsBand | PetFlixAI/utils/costTracker.ts:43-48 | A duration in (6(k-1), 6k] costs exactly k units, at 0.43 USD each. |
| CostTracker.CallCostAtLeastOneUnit | PetFlixAI/utils/costTracker.ts:44-47 | Every call costs at least 0.43 USD. A call of at most 6 seconds costs exactly 0.43 USD. |
| CostTracker.CallCostMonotone | PetFlixAI/utils/costTracker.ts:43-48 | A longer call never costs fewer units or less money than a shorter one. |
| CostTracker.EstimatedCosts | PetFlixAI/utils/costTracker.ts:43-48 | A 10-second clip costs 0.86 USD and a 50-second estimate 3.87 USD. |
| CostTracker.WriteThenRead | PetFlixAI/utils/costTracker.ts:20 | Writing a cost and reading it back gives that cost. |
| CostTracker.WithinBudget | PetFlixAI/utils/costTracker.ts:52-63 | No contract. It holds when the stored cost plus the call's price is at most 50 USD; `CostLedger.CanMakeApiCall` returns it and `ApprovedCallKeepsBudget` states that a recorded approved call stays in budget. |
| CostTracker.ApprovedCallKeepsBudget | PetFlixAI/utils/costTracker.ts:52-72 | Once a call the budget allowed has been recorded, the ledger holds at most 50 USD. |
| CostTracker.CostLedger.constructor | PetFlixAI/utils/costTracker.ts:3 | The ledger starts from the given file state. |
| CostTracker.CostLedger.ReadCost | PetFlixAI/utils/costTracker.ts:12-27 | Returns the ledger's value. It is 0 unless a parsed file is present. |
| CostTracker.CostLedger.CanMakeApiCall | PetFlixAI/utils/costTracker.ts:52-63 | True exactly when the stored cost plus the call's price is at most 50 USD. |
| CostTracker.CostLedger.WriteAccumulatedCost | PetFlixAI/utils/costTracker.ts:30-40 | A successful write stores the cost. A failed write leaves the file as it was. |
| CostTracker.CostLedger.RecordApiCallCost | PetFlixAI/utils/costTracker.ts:66-72 | After a successful write the stored cost has grown by the call's price, which is at least 0.43 USD. A failed write changes nothing. |
| CostTracker.CostLedger.ResetApiCost | PetFlixAI/utils/costTracker.ts:75-78 | A successful write stores 0. A failed write changes nothing. |
| Cache.Normalized | PetFlixAI/services/CacheService.ts:22-32 | A parsed file gives its entries. A missing or corrupt file gives the empty map. |
| Cache.LookupEntry | PetFlixAI/services/CacheService.ts:53-58 | A hit exactly when the key is present with a non-empty URL. The hit is the stored URL. |
| Cache.PutThenLookup | PetFlixAI/services/CacheService.ts:65-70 | With a non-empty key and URL, looking up the stored key finds the URL. |
| Cache.PutKeepsOtherKeys | PetFlixAI/services/CacheService.ts:66-69 | Storing under one key leaves the lookup of every other key unchanged. |
| Cache.PutIgnoresEmpty | PetFlixAI/services/CacheService.ts:66 | A missing or empty key or URL stores nothing. |
| Cache.KeyInputInjectiveForTheme | PetFlixAI/services/CacheService.ts:43-46 | For one theme, equal hash inputs come from equal image URIs. |
| Cache.KeyInputAmbiguousAcrossThemes | PetFlixAI/services/CacheService.ts:44 | Across themes the '-' join is ambiguous: ("a-b", "c") and ("a", "b-c") hash the same string, so they get the same key. |
| Cache.CacheKey | PetFlixAI/services/CacheService.ts:43-46 | No contract. It is the digest of the image URI and the theme id joined by "-"; `KeyInputInjectiveForTheme` and `KeyInputAmbiguousAcrossThemes` state what the join preserves. |
| Cache.PutEntry | PetFlixAI/services/CacheService.ts:66-70 | No contract. It stores the URL under the key when both are present and non-empty; `PutThenLookup`, `PutKeepsOtherKeys` and `PutIgnoresEmpty` state its properties. |
| Cache.CacheMimeType | PetFlixAI/services/CacheService.ts:83-87 | The MIME type is image/png or image/jpeg. |
| Cache.CacheMimeTypeExamples | PetFlixAI/services/CacheService.ts:83-87 | Only the text after the last dot decides, in any letter case: "a.PNG" gives png, "a.png.jpg" gives jpeg, and the dotless "png" gives png. |
| Cache.UpperCaseExtensionIsPng | PetFlixAI/services/CacheService.ts:83-87 | An upper-case "PNG" extension is lower-cased and gives image/png. |
| Cache.LastExtensionDecides | PetFlixAI/services/CacheService.ts:83-87 | Only the last extension counts: "a.png.jpg" gives image/jpeg. |
| Cache.NameWithoutDotIsExtension | PetFlixAI/services/CacheService.ts:83-87 | A name without a dot is its own extension: "png" gives image/png. |
| Cache.EncodeImageAsDataUri | PetFlixAI/services/CacheService.ts:78-93 | It fails, with "Failed to load or encode image", exactly when the read fails. Otherwise it returns the data-URI header for the MIME type followed by the Base64 text. |
| Cache.EncodedPayloadRecoverable | PetFlixAI/services/CacheService.ts:88 | An encoded image starts with a "data:image/" header, and dropping the header gives back the Base64 text. |
| Cache.CacheService.constructor | PetFlixAI/services/CacheService.ts:5-6 | The cache starts from the given metadata file. |
| Cache.CacheService.ReadCacheMetadata | PetFlixAI/services/CacheService.ts:22-32 | Returns `ReadOutcome` and leaves the file as `AfterRead` gives it. A successful read of a parsed file returns its entries and keeps the file. A failed read or a corrupt file is reset to the empty map, and `{}` is returned. It fails, keeping the file, only when that reset fails too. |
| Cache.CacheService.CheckCache | PetFlixAI/services/CacheService.ts:48-63 | Returns `CheckOutcome` and leaves the file as `AfterCheck` gives it. A failing hash yields no key and no URL and keeps the file. Otherwise the key is that of the image and theme whenever the read returns a map, with the lookup in that map. A failed read that the reset recovers gives the key and no URL. |
| Cache.CacheService.CacheResult | PetFlixAI/services/CacheService.ts:65-76 | The new file is `AfterStore`. An empty or missing key or URL changes nothing. Otherwise the stored map, or the empty map after a recovered failed read, is written back with the URL under the key. A failing write leaves the map the read produced. All failures are swallowed. |
| Cache.CacheRoundTrip | PetFlixAI/services/CacheService.ts:48-76 | With a working file system, caching a URL and then checking the same image and theme hits that URL under that key. |
| Cache.ReadOutcome | PetFlixAI/services/CacheService.ts:22-32 | A read of a parsed file gives its entries. A failed read or a corrupt file gives the empty map when the reset works, and an error exactly when the reset fails as well. |
| Cache.AfterRead | PetFlixAI/services/CacheService.ts:22-32 | The file after the read: the entries returned when the read succeeds, the old file when it fails. |
| Cache.FailedReadResetsCache | PetFlixAI/services/CacheService.ts:27-31 | A failed read or a corrupt file, with a working reset, returns `{}` and leaves the empty map on disk, whatever was stored before. |
| Cache.CheckOutcome | PetFlixAI/services/CacheService.ts:48-63 | No key and no URL when the hash fails or the read errs. Otherwise the key is the image-and-theme key. A hit needs a successful read of a parsed file holding that key, and is the stored URL. |
| Cache.AfterCheck | PetFlixAI/services/CacheService.ts:48-52 | A failing hash leaves the file. Otherwise the file is as the read leaves it. |
| Cache.AfterStore | PetFlixAI/services/CacheService.ts:65-76 | An empty or missing key or URL leaves the file. With key and URL set, a read that returns a map and a working write leave the URL stored under the key. |
| Cache.FailedReadStoresOnlyNewEntry | PetFlixAI/services/CacheService.ts:27-31 | After a failed read that the reset recovers, `cacheResult` writes a map holding only the new entry, so every earlier entry is lost. |
| Cache.StoreAfterCheckFinds | PetFlixAI/services/CacheService.ts:48-76 | Whenever `checkCache` produced a key, storing a URL under it with a working write makes the lookup of that key find the URL, however the check's read ended. |
| Themes.AvailableThemes | PetFlixAI/services/ThemeService.ts:81-83 | Three theme ids, every one of them in the catalogue. |
| Themes.GetNarrativeClips | PetFlixAI/services/ThemeService.ts:85-92 | It fails with INVALID_THEME exactly when the theme is missing or does not have five clips. Otherwise it returns the theme's five clips. |
| Themes.GetNarrativePrompts | PetFlixAI/services/ThemeService.ts:95-98 | It fails exactly when the clip lookup fails. Otherwise it returns the five prompts of the clips, in order. |
| Themes.AddPromptVariation | PetFlixAI/services/ThemeService.ts:100-114 | The prompt is always a prefix of the result. Clips 2-5 get " " and their variation appended. Every other clip number keeps the prompt unchanged. |
| Themes.ValidThemesAreTheAvailableOnes | PetFlixAI/services/ThemeService.ts:81-92 | A theme id is accepted exactly when it is one of the available themes. |
| Themes.RomanceAndSciFiRejected | PetFlixAI/services/ThemeService.ts:85-90 | 'romance' and 'sci-fi', which the playback screen still names, are rejected with INVALID_THEME. |
| Themes.ReferenceKeysInCatalogue | PetFlixAI/services/ThemeService.ts:10-79 | Every reference image key in the catalogue is FROG_DRAGON or LEAF. |
| Themes.VariationsDistinguishClips | PetFlixAI/services/ThemeService.ts:100-114 | Different clip numbers in 1..5 give different prompts. Clip 1 is sent unchanged. |
| ReferenceImages.FindById | PetFlixAI/constants/referenceImages.ts:54 | A found image has the requested id and is an entry of the table. Nothing is found exactly when no entry has that id. |
| ReferenceImages.FindByKey | PetFlixAI/constants/referenceImages.ts:24-39 | A found image is stored under the requested key. Nothing is found exactly when no entry has that key. |
| ReferenceImages.GetReferenceImageById | PetFlixAI/constants/referenceImages.ts:53-55 | As written, the lookup compares the id field. Only 'frog_dragon' and 'leaf' are found, each with that id. |
| ReferenceImages.GetReferenceImage | PetFlixAI/constants/referenceImages.ts:24-39 | The corrected lookup by record key. FROG_DRAGON and LEAF give their images; every other key gives nothing. |
| ReferenceImages.KeysAndIdsDistinct | PetFlixAI/constants/referenceImages.ts:24-39 | The record's keys are distinct, and so are its ids. |
| ReferenceImages.CatalogueReferencesNeverResolveAsWritten | PetFlixAI/constants/referenceImages.ts:53-55 | No reference key used by the theme catalogue is found by the as-written lookup. |
| ReferenceImages.FrogDragonNotFoundAsWritten | PetFlixAI/constants/referenceImages.ts:53-55 | The fairy tale's fourth clip asks for FROG_DRAGON and LEAF, and the as-written lookup finds neither. |
| ReferenceImages.CatalogueReferencesResolve | PetFlixAI/constants/referenceImages.ts:24-39 | Every reference key of the catalogue resolves with the by-key lookup. |
| ImageUtils.HttpUriIsNotLocal | PetFlixAI/utils/imageUtils.ts:156-158 | A URI that starts with "http" is never treated as a local file. |
| ImageUtils.IsLocalFileUri | PetFlixAI/utils/imageUtils.ts:156-158 | No contract. It holds when the URI starts with "file://" or "content://"; `HttpUriIsNotLocal` states that http(s) URLs are not local. |
| ImageUtils.Extension | PetFlixAI/utils/imageUtils.ts:124 | The extension contains no '.' and is no longer than the URI. |
| ImageUtils.MimeTypeFor | PetFlixAI/utils/imageUtils.ts:125-140 | png maps to image/png and webp to image/webp. Every other extension, jpg and jpeg among them, maps to image/jpeg. Each direction is stated. |
| ImageUtils.ExtensionAfterDot | PetFlixAI/utils/imageUtils.ts:124 | The extension of name + "." + ext is ext whenever ext has no dot. |
| ImageUtils.UpperCaseExtensionMaps | PetFlixAI/utils/imageUtils.ts:124-130 | An upper-case ".PNG" lower-cases to "png" and maps to image/png. |
| ImageUtils.NeedsResize | PetFlixAI/utils/imageUtils.ts:27-52 | No contract. It holds when a side is under 128 or the original aspect ratio is outside [1/4, 4]; `PlanResize` computes the same flag and `CompliantImageUntouched` states that otherwise nothing changes. |
| ImageUtils.TargetDimensions | PetFlixAI/utils/imageUtils.ts:33-52 | No contract. It scales both sides by max(128/w, 128/h) rounded up when a side is small, then crops by the original ratio; `TargetDimensionsMeetRequirements` states the result's bounds. |
| ImageUtils.ScaleBySmallerSideRounded | PetFlixAI/utils/imageUtils.ts:34-36 | Scaling by 128 over the smaller side makes that side exactly 128 after rounding up, and the other side at least 128. |
| ImageUtils.ScaledUpAtLeastMinimum | PetFlixAI/utils/imageUtils.ts:33-39 | After the scale-up step both sides are at least 128. The smaller side of a too-small image becomes exactly 128. |
| ImageUtils.TargetDimensionsMeetRequirements | PetFlixAI/utils/imageUtils.ts:33-52 | The prepared sides are both at least 128. When the original ratio was outside [1/4, 4], the new ratio lies inside it. |
| ImageUtils.CompliantImageUntouched | PetFlixAI/utils/imageUtils.ts:27-52 | An image already at least 128 on both sides, with a ratio in [1/4, 4], keeps its dimensions. |
| ImageUtils.SizeRule | PetFlixAI/utils/imageUtils.ts:70-99 | A file at most 50 MB, or of unknown size, is kept. A size query that rejects fails the rule with its message. An accepted file is never over the limit, its size query succeeded, and it is either the prepared file or its recompression. |
| ImageUtils.PlanResize | PetFlixAI/utils/imageUtils.ts:20-52 | The resize flag is set exactly when the image is too small or has a bad aspect ratio. The resize then has the target dimensions; otherwise the original sides are kept. |
| ImageUtils.EnforceSizeLimit | PetFlixAI/utils/imageUtils.ts:70-101 | The steps on the locals compute the size rule. |
| ImageUtils.PrepareOutcome | PetFlixAI/utils/imageUtils.ts:9-106 | An accepted URI is the original, the resized or the recompressed one, and is never over 50 MB. Every error starts with "Failed to prepare image: ". A compliant image within the limit is accepted as it is. A compliant image whose size query rejects fails with the prefixed message of that rejection. |
| ImageUtils.ValidateAndPrepareImage | PetFlixAI/utils/imageUtils.ts:9-106 | The result is `PrepareOutcome`. A failing probe or resize is reported. The resize is requested exactly when one is needed, with the target dimensions. The size rule decides the rest, including a size query that rejects. An accepted file is never over 50 MB. Every error starts with "Failed to prepare image: ". |
| ImageUtils.ConvertImageToBase64 | PetFlixAI/utils/imageUtils.ts:113-149 | A preparation error or a read error is returned with the prefix "Failed to convert image: ". Otherwise the result is "data:", the MIME type of the prepared file's extension, ";base64," and the Base64 text read from the prepared file. |
| VideoStitcher.ValidateClips | PetFlixAI/services/VideoStitcher.ts:102-114 | The clips pass exactly when there is at least one and every duration is positive. Each failure gets its own message. A non-http URI only warns. |
| VideoStitcher.ValidationIgnoresUris | PetFlixAI/services/VideoStitcher.ts:107-113 | Replacing the URIs does not change the validation verdict. |
| VideoStitcher.SameDurationsSameValidation | PetFlixAI/services/VideoStitcher.ts:102-114 | Two clip lists of the same length with the same durations get the same verdict and message. |
| VideoStitcher.TimelineEntry | PetFlixAI/services/VideoStitcher.ts:122-133 | Timeline entry i plays clip i for its duration, starting at the sum of the durations before it. |
| VideoStitcher.TimelineStartsArePrefixSums | PetFlixAI/services/VideoStitcher.ts:122-133 | The first clip starts at 0, and each clip starts where the previous one ends: there are no gaps and no overlaps. |
| VideoStitcher.Timeline | PetFlixAI/services/VideoStitcher.ts:122-133 | One track entry per clip. `TimelineEntry` states entry i: clip i's URI and duration, starting at the sum of the earlier durations. |
| VideoStitcher.EditPayload | PetFlixAI/services/VideoStitcher.ts:119-150 | It fails exactly when validation fails. Otherwise the edit has one track with one entry per clip, format mp4 and the requested resolution. |
| VideoStitcher.CreateEditPayload | PetFlixAI/services/VideoStitcher.ts:119-150 | The loop that accumulates the start time builds exactly the edit payload. |
| VideoStitcher.NewClient | PetFlixAI/services/VideoStitcher.ts:162-173 | A missing key fails first, then a missing URL. Otherwise the client keeps both. |
| VideoStitcher.SubmitRenderJob | PetFlixAI/services/VideoStitcher.ts:178-206 | It succeeds exactly when the parsed reply has success and a non-empty render id, and then returns that id. A parsed rejection carries the submit-failed prefix. |
| VideoStitcher.Attempt | PetFlixAI/services/VideoStitcher.ts:215-249 | An attempt finishes exactly on a successful 'done' reply with a non-empty URL. It keeps polling exactly on a successful reply whose status is neither done nor failed. |
| VideoStitcher.PollFrom | PetFlixAI/services/VideoStitcher.ts:211-266 | No contract. It is the query loop from a given attempt up to 40; `PollFindsFirstFinished`, `FailedStatusIsRetried` and `LastAttemptErrorIsFinal` state its properties and `PollJobStatus` computes it. |
| VideoStitcher.StatusUrl | PetFlixAI/services/VideoStitcher.ts:212 | No contract. It is the job's status URL, the client's API URL, a slash and the render id; `PollJobStatus` sends every query there. |
| VideoStitcher.PollJobStatus | PetFlixAI/services/VideoStitcher.ts:211-266 | The loop computes the polling outcome of the replies at the job's status URL, with 1 to 40 queries. A success is the URL of the last query's finished attempt. A failure comes only after all 40 queries. |
| VideoStitcher.PollFindsFirstFinished | PetFlixAI/services/VideoStitcher.ts:211-266 | Polling succeeds exactly when one of the first 40 attempts finishes, and it returns the URL of the first one that does. |
| VideoStitcher.FailedStatusIsRetried | PetFlixAI/services/VideoStitcher.ts:246-262 | A 'failed' job is caught and retried like any other error, so a later 'done' still succeeds. |
| VideoStitcher.LastAttemptErrorIsFinal | PetFlixAI/services/VideoStitcher.ts:254-259 | An error on the 40th attempt ends polling with the poll-failed message naming that error. |
| VideoStitcher.StitchVideos | PetFlixAI/services/VideoStitcher.ts:276-321 | A client error is returned as it is. A payload error and a submit error are rethrown with their message, or the unknown-error message when it is empty. When all three steps succeed, the result is the polling outcome at the job's status URL, its error rethrown the same way. An error always has a non-empty message. |
| VideoStitcher.StitchSucceedsIffRenderFinishes | PetFlixAI/services/VideoStitcher.ts:276-303 | Stitching succeeds exactly when the client, the payload and the submission succeed and one of the first 40 status queries finds the render done. |
| VideoStitcher.ShotstackUrl | PetFlixAI/services/VideoStitcher.ts:339 | The URL is never empty. A configured URL is used as is. |
| VideoStitcher.ShotstackUrlAlwaysConfigured | PetFlixAI/services/VideoStitcher.ts:333-347 | Through the entry point the URL error cannot happen. With a key the client is always built. Without a key the call fails with the key error. |
| VideoStitcher.StitchVideosWithShotstack | PetFlixAI/services/VideoStitcher.ts:333-347 | No contract. It runs `StitchVideos` with the configured key and the URL or its default; `ShotstackUrlAlwaysConfigured` states that the URL is never missing. |
| ViduApi.ApiKey | PetFlixAI/services/NetworkService.ts:7 | The key is never empty: an unset variable falls back to the placeholder. |
| ViduApi.CheckApiConfiguration | PetFlixAI/services/NetworkService.ts:50-55 | The configuration error is raised exactly for an empty key. |
| ViduApi.ConfigurationAlwaysPasses | PetFlixAI/services/NetworkService.ts:7 | Because of the placeholder fallback, the configuration check never fails. |
| ViduApi.DefaultMaxAttempts | PetFlixAI/services/ViduApiService.ts:156 | With the defaults in NetworkService.ts:17-18 the loop allows 30 attempts. |
| ViduApi.UserImageData | PetFlixAI/services/ViduApiService.ts:49-59 | A non-local URL is sent as given, and a local one is converted. A failed conversion gives "Failed to prepare user image: " and the conversion's message. |
| ViduApi.ReferenceDataFollowsFound | PetFlixAI/services/ViduApiService.ts:63-83 | The reference data has one entry per found image, in id order, each the data of that image. |
| ViduApi.UnknownIdsSkipped | PetFlixAI/services/ViduApiService.ts:67-71 | Ids the lookup does not know add nothing. |
| ViduApi.ReferenceDataErrorPersists | PetFlixAI/services/ViduApiService.ts:74-81 | Once an image of a prefix of the ids fails, the whole request fails with that error. |
| ViduApi.ReferenceData | PetFlixAI/services/ViduApiService.ts:63-83 | No contract. It is the data of each found reference in id order, or the first failure; `ReferenceDataFollowsFound`, `UnknownIdsSkipped` and `ReferenceDataErrorPersists` state its properties. |
| ViduApi.Images | PetFlixAI/services/ViduApiService.ts:46-83 | A built image array is non-empty, and its first entry is the user image data. |
| ViduApi.TaskIdFrom | PetFlixAI/services/ViduApiService.ts:104-150 | A task id comes back exactly when the reply parsed with a non-empty task_id, and it is that id. |
| ViduApi.RequestFor | PetFlixAI/services/ViduApiService.ts:86-94 | No contract. It builds the request body: model, images, prompt, duration 4, the aspect ratio, the resolution and "auto" movement. |
| ViduApi.CreateApiTask | PetFlixAI/services/ViduApiService.ts:33-151 | The references are looked up with `getReferenceImageById`, as the code does. A missing user image fails before anything is sent. A failing image fails the call with its error, and nothing is sent. Otherwise the request carries the model, the images, the prompt and the defaults, and the result is the reply's task id. With only "FROG_DRAGON" and "LEAF" references, the request carries the user image alone. |
| ViduApi.CatalogueClipSendsUserImageOnlyAsWritten | PetFlixAI/services/ViduApiService.ts:66-71 | With the by-id lookup as written, a catalogue clip sends the user image alone. |
| ViduApi.FoundAllKnown | PetFlixAI/services/ViduApiService.ts:66-71 | When the lookup knows every id, one image is found per id. |
| ViduApi.CatalogueClipSendsEveryReferenceByKey | PetFlixAI/services/ViduApiService.ts:63-83 | With the lookup by table key instead, the same catalogue references give the user image followed by one image per reference. |
| ViduApi.Attempt | PetFlixAI/services/ViduApiService.ts:169-222 | The loop goes on exactly on a server error before the last attempt, or on a state other than success and failed. An iteration completes exactly on success with a first creation URL, and returns that URL. |
| ViduApi.ProgressAt | PetFlixAI/services/ViduApiService.ts:163 | The computed progress is at most 0.99, and positive from the first attempt on. |
| ViduApi.PollFrom | PetFlixAI/services/ViduApiService.ts:161-229 | No contract. It is the polling loop from a given attempt count; `KeepPollingStep`, `FinalStep` and `StopStep` relate it to one iteration. |
| ViduApi.Poll | PetFlixAI/services/ViduApiService.ts:153-229 | No contract. It is the loop from the first request; `PollGuarantees` and the lemmas next to it state its bounds and results, and `PollApiTaskStatus` computes it. |
| ViduApi.PollApiTaskStatus | PetFlixAI/services/ViduApiService.ts:153-229 | The loop yields exactly the run of the polling function: its result, the values passed to onProgress and the number of requests. |
| ViduApi.KeepPollingStep | PetFlixAI/services/ViduApiService.ts:161-176 | An iteration that goes on first reports its progress, if higher, then runs the rest of the loop. |
| ViduApi.FinalStep | PetFlixAI/services/ViduApiService.ts:161-206 | The iteration that ends the loop reports its progress, then 1 unless it failed before the success branch. |
| ViduApi.StopStep | PetFlixAI/services/ViduApiService.ts:161-206 | An iteration that stops ends the loop after attempts + 1 requests, once its progress is reported if higher. A completion succeeds with its URL and the default duration, and an incomplete success fails; both then report 1. A fatal reply fails with its message and reports nothing more. |
| ViduApi.KeepPollingKeepsRun | PetFlixAI/services/ViduApiService.ts:161-176 | If the reports passed on so far followed by the rest of the loop make the whole run, that stays true one iteration later: the iteration adds its report only when it is higher. |
| ViduApi.ReportsBounded | PetFlixAI/services/ViduApiService.ts:161-190 | Every value reported lies above the previous report. Each is at most 0.99, except a final 1 on completion. |
| ViduApi.ReportsIncrease | PetFlixAI/services/ViduApiService.ts:163-167 | The progress reports strictly increase. |
| ViduApi.SuccessReportsOne | PetFlixAI/services/ViduApiService.ts:188-202 | A success ends with the report 1 and the default duration. |
| ViduApi.QueriesBounded | PetFlixAI/services/ViduApiService.ts:161-162 | The loop makes at most ceil(maxAttempts) requests. |
| ViduApi.SuccessIsFirstCompletion | PetFlixAI/services/ViduApiService.ts:161-225 | The loop succeeds exactly when some iteration completes and every earlier one went on, and it returns that iteration's URL. |
| ViduApi.AllPendingTimesOut | PetFlixAI/services/ViduApiService.ts:227-228 | When every iteration goes on, the loop times out. |
| ViduApi.PollGuarantees | PetFlixAI/services/ViduApiService.ts:153-229 | Reports strictly increase within (0, 0.99], except a final 1. There are 1 to ceil(maxAttempts) requests, or none when maxAttempts <= 0. A success ends with 1 and the default duration, from a completed last request. |
| ViduApi.ServerErrorRetriedUntilLast | PetFlixAI/services/ViduApiService.ts:172-180 | A status of 500 or more is retried before the last attempt and is fatal on it. |
| ViduApi.QueryTaskStatus | PetFlixAI/services/ViduApiService.ts:231-263 | It fails, with a non-empty error and never a throw, exactly when the key is empty or the request fails. A URL is returned exactly on success with at least one creation, together with the default duration. Otherwise a success carries the state. |
| NarrativeGenerator.ErrorText | PetFlixAI/services/NarrativeVideoGenerator.ts:169 | The reported message is never empty: an empty message becomes the generic error. |
| NarrativeGenerator.ClipOutcome | PetFlixAI/services/NarrativeVideoGenerator.ts:95-122 | A generated clip came from a created task whose polling succeeded with that URL and duration. Its URL is non-empty. |
| NarrativeGenerator.RequestSendsClipPrompt | PetFlixAI/services/NarrativeVideoGenerator.ts:59-95 | A clip's request sends its catalogue prompt varied for its number, so the prompt begins with the catalogue text. It sends the image it was given. |
| NarrativeGenerator.CollectOk | PetFlixAI/services/NarrativeVideoGenerator.ts:57-132 | The clips are collected exactly when every clip succeeds. They are then the clips' values, one for one, in order. |
| NarrativeGenerator.CollectFirstError | PetFlixAI/services/NarrativeVideoGenerator.ts:57-132 | The first failing clip's error is the run's error, whatever comes after it. |
| NarrativeGenerator.CollectStep | PetFlixAI/services/NarrativeVideoGenerator.ts:122 | One more successful clip extends the collected prefix by its value. |
| NarrativeGenerator.Collect | PetFlixAI/services/NarrativeVideoGenerator.ts:57-132 | No contract. It is the first failure among the clip outcomes, or all their values in order; `CollectOk` and `CollectFirstError` state both directions. |
| NarrativeGenerator.ClipOutcomes | PetFlixAI/services/NarrativeVideoGenerator.ts:57-59 | There is one outcome per catalogue clip. |
| NarrativeGenerator.ResultOf | PetFlixAI/services/NarrativeVideoGenerator.ts:160-175 | Success exactly when the run succeeded, with the clip URLs and the stitched URL. A failure carries the error text. |
| NarrativeGenerator.Outcome | PetFlixAI/services/NarrativeVideoGenerator.ts:33-164 | No contract. It composes the catalogue lookup and `RunOutcome`; `SuccessMeansEveryClip` and `InvalidThemeFailsFirst` state its properties. |
| NarrativeGenerator.RunOutcome | PetFlixAI/services/NarrativeVideoGenerator.ts:45-164 | No contract. It runs the network and key checks, the clips and the stitcher in order; `RunSuccessMeansEveryClip` and `ClipFailureFailsRunOutcome` state its properties. |
| NarrativeGenerator.StitchOutcome | PetFlixAI/services/NarrativeVideoGenerator.ts:140-157 | No contract. A clip failure passes through; an empty stitched URL fails with "Video stitching failed to return a URL."; otherwise the clips and the URL. |
| NarrativeGenerator.SuccessMeansEveryClip | PetFlixAI/services/NarrativeVideoGenerator.ts:33-164 | A successful run generated each of the theme's five clips in order, and stitched exactly those clips at 'hd'. |
| NarrativeGenerator.RunSuccessMeansEveryClip | PetFlixAI/services/NarrativeVideoGenerator.ts:57-164 | For any clip list, a successful run generated every clip in order, and stitched exactly those clips at 'hd'. |
| NarrativeGenerator.InvalidThemeFailsFirst | PetFlixAI/services/NarrativeVideoGenerator.ts:33 | An unknown theme fails with INVALID_THEME, whatever the network and the key. |
| NarrativeGenerator.AnyClipFailureFailsRun | PetFlixAI/services/NarrativeVideoGenerator.ts:57-132 | Any failing clip fails the whole run. |
| NarrativeGenerator.ClipFailureFailsRunOutcome | PetFlixAI/services/NarrativeVideoGenerator.ts:57-132 | For any clip list, one failing clip fails the run. |
| NarrativeGenerator.PollMessage | PetFlixAI/services/NarrativeVideoGenerator.ts:110 | The poll message is never empty. |
| NarrativeGenerator.PollEvents | PetFlixAI/services/NarrativeVideoGenerator.ts:105-113 | There is one event per poll report, in order. |
| NarrativeGenerator.PollEventWithinClip | PetFlixAI/services/NarrativeVideoGenerator.ts:96-131 | A poll report lands between the clip's 'task created' mark (0.3) and its 'complete' mark (1.0). |
| NarrativeGenerator.ReportPollProgress | PetFlixAI/services/NarrativeVideoGenerator.ts:105-113 | The tracker gets exactly the poll events appended. |
| NarrativeGenerator.ReportOnePoll | PetFlixAI/services/NarrativeVideoGenerator.ts:105-112 | One poll report appends exactly its event to the tracker. |
| NarrativeGenerator.Abort | PetFlixAI/services/NarrativeVideoGenerator.ts:166-175 | One 'error' event at the held value, which is left unchanged, then the failure result with the error text. |
| NarrativeGenerator.GenerateClip | PetFlixAI/services/NarrativeVideoGenerator.ts:57-131 | One pass of the loop emits events. It sends the varied prompt with the original image and the clip's references, and yields the clip's outcome. |
| NarrativeGenerator.GenerateClips | PetFlixAI/services/NarrativeVideoGenerator.ts:57-132 | The loop collects the clip outcomes. It requests every clip on success. On failure it stops right after the first failing clip. |
| NarrativeGenerator.StitchAll | PetFlixAI/services/NarrativeVideoGenerator.ts:140-157 | The stitcher's answer is passed on, and an empty URL becomes the stitching error. A success ends with 'complete' at 1. |
| NarrativeGenerator.GenerateAndStitch | PetFlixAI/services/NarrativeVideoGenerator.ts:57-164 | After the checks, the result is that of the clips and the stitcher. A success attempted every clip and stitched exactly the collected clips, ending at 'complete' 1. A failure ends with an 'error' event at the held progress. |
| NarrativeGenerator.RunNarrative | PetFlixAI/services/NarrativeVideoGenerator.ts:45-175 | After the theme lookup, the result is that of the run. A failing network check requests no clip. A success requested every clip and ends with 'complete' at 1. A failure ends with 'error' at the previous value. |
| NarrativeGenerator.GenerateNarrativeVideo | PetFlixAI/services/NarrativeVideoGenerator.ts:22-177 | The result is that of the run. A bad theme emits one 'error' event and requests nothing. At most 5 clips are requested, all 5 on success. The last event is 'complete' at 1 on success, and 'error' at the previous value on failure. |
| VideoService.ThemeOf | PetFlixAI/services/VideoService.ts:110-124 | An id names a theme of this service's tables exactly when it is one of 'fairy-tale', 'crime-drama', 'romance' and 'sci-fi'. |
| VideoService.GetThemeDetails | PetFlixAI/services/VideoService.ts:200-207 | It succeeds exactly for the four table keys and gives that theme's prompt. Any other id fails with INVALID_THEME. |
| VideoService.GetNarrativePrompts | PetFlixAI/services/VideoService.ts:210-218 | It succeeds exactly for the four table keys. The result has five prompts, each the table entry with its subject placeholder replaced. Any other id fails with INVALID_THEME. |
| VideoService.SuperheroHasNoNarrativePrompts | PetFlixAI/services/VideoService.ts:126-156 | The catalogue's 'superhero' theme has no entry in either table, so both lookups fail with INVALID_THEME. |
| VideoService.WithSubjectReplacesFirstOnly | PetFlixAI/services/VideoService.ts:217 | Only the first '[SUBJECT_DESCRIPTION]' becomes 'pet'. The text around it is kept, including any later placeholder, and a prompt without one is unchanged. |
| VideoService.WithSubject | PetFlixAI/services/VideoService.ts:217 | No contract. It replaces the first "[SUBJECT_DESCRIPTION]" with "pet"; `WithSubjectReplacesFirstOnly` states that only the first one goes. |
| VideoService.EncodeImageAsDataUri | PetFlixAI/services/VideoService.ts:292-307 | A failed read fails with IMAGE_LOAD_ERROR. A successful read gives the data URI with the PNG or JPEG header. |
| VideoService.TaskIdFrom | PetFlixAI/services/VideoService.ts:320-345 | A task id is returned exactly when the reply parsed with status code 0 and a non-empty id. A thrown fetch error passes through, and every other failure is API_REQUEST_FAILED. |
| VideoService.DownloadUrlFrom | PetFlixAI/services/VideoService.ts:405-424 | A URL is returned exactly when the reply parsed with status code 0 and a non-empty download URL. A thrown fetch error passes through, and every other failure is API_REQUEST_FAILED. |
| VideoService.ClockLowerBound | PetFlixAI/services/VideoService.ts:352-397 | Each attempt that does not return sleeps 10 s, so the check before attempt k reads at least k times 10 s. |
| VideoService.PollProgress | PetFlixAI/services/VideoService.ts:373-374 | A report made after the start lies in [0.2, 0.8]. |
| VideoService.PollProgressMonotone | PetFlixAI/services/VideoService.ts:373-374 | A later report is never smaller than an earlier one. |
| VideoService.PollFrom | PetFlixAI/services/VideoService.ts:352-403 | No contract. It is the MiniMax polling loop from attempt k; `PollAttemptsBounded`, `PollReportsOrdered`, `PollResultIsFirstStop` and the lemmas after it state its properties. |
| VideoService.AttemptOf | PetFlixAI/services/VideoService.ts:356-395 | One pass of the loop is fatal exactly when the reply is a thrown VIDEO_GENERATION_FAILED, a 400/401/403/404 status, a non-zero status code, 'Fail', or 'Success' without a file id. It is done exactly on 'Success' with a file id, which it returns. A report is made exactly on a parsed reply with code 0. |
| VideoService.PollAttemptsBounded | PetFlixAI/services/VideoService.ts:347-403 | The loop makes at most 30 attempts in 5 minutes. |
| VideoService.PollReportsOrdered | PetFlixAI/services/VideoService.ts:347-403 | The polling loop's reports lie in [0.2, 0.8] and never decrease. |
| VideoService.PollResultIsFirstStop | PetFlixAI/services/VideoService.ts:347-403 | Every attempt before the last one continues, inside the 5-minute window. The result is the first attempt's file id or VIDEO_GENERATION_FAILED, or API_TIMEOUT once the clock reads 5 minutes. |
| VideoService.PollContinuesUntilStop | PetFlixAI/services/VideoService.ts:352-398 | Every attempt starts inside the 5-minute window. Every attempt before the last continues, and so does the last one when the run timed out. |
| VideoService.PollTimesOutAtWindowEnd | PetFlixAI/services/VideoService.ts:352-403 | A run that times out stopped at a check that read 5 minutes or more. |
| VideoService.PollDoneAtLastAttempt | PetFlixAI/services/VideoService.ts:376-382 | A run that succeeds ends at the attempt that found the task done, and returns that attempt's file id. |
| VideoService.PollFatalAtLastAttempt | PetFlixAI/services/VideoService.ts:358-395 | A run that fails within the window ends at a fatal attempt, with VIDEO_GENERATION_FAILED. |
| VideoService.ContinueStep | PetFlixAI/services/VideoService.ts:387-398 | An attempt that continues adds its report in front of the rest of the run. |
| VideoService.StopStep | PetFlixAI/services/VideoService.ts:376-386 | An attempt that is done or fatal ends the run with its file id or VIDEO_GENERATION_FAILED. |
| VideoService.PollApiTaskStatus | PetFlixAI/services/VideoService.ts:347-403 | It returns the run of the polling loop: at most 30 attempts, with reports in [0.2, 0.8] in non-decreasing order. |
| VideoService.ReportedError | PetFlixAI/services/VideoService.ts:480-482 | The reported text is a known error message. A known message is kept as it is, and any other becomes VIDEO_GENERATION_FAILED. |
| VideoService.SingleResult | PetFlixAI/services/VideoService.ts:475-485 | The result succeeds exactly when the run did not fail. A success carries the URL and no error. A failure carries the reported message and no URL. |
| VideoService.MissUrlNonEmpty | PetFlixAI/services/VideoService.ts:452-465 | A generated video URL is never empty. |
| VideoService.LookupInNonEmpty | PetFlixAI/services/VideoService.ts:261-276 | A cache hit hands back a non-empty URL, under the key hashed from URI and theme. |
| VideoService.LookupIn | PetFlixAI/services/VideoService.ts:261-276 | No contract. It is `checkCache`'s answer on the stored file with the service's hash and file-system behaviour; `LookupInNonEmpty` states a hit's URL is non-empty. |
| VideoService.MissOutcome | PetFlixAI/services/VideoService.ts:448-465 | No contract. It runs the steps after a miss: encode, create the task, poll, retrieve the URL, stopping at the first failure; `MissUrlNonEmpty` states a generated URL is non-empty. |
| VideoService.SingleThemeCheckedBeforeCache | PetFlixAI/services/VideoService.ts:436-441 | An unknown theme fails with INVALID_THEME before the cache is consulted or the image read. |
| VideoService.PollForFile | PetFlixAI/services/VideoService.ts:460 | It returns the polling loop's result, with every report in [0, 1]. |
| VideoService.GenerateOnMiss | PetFlixAI/services/VideoService.ts:448-465 | After a miss, the run is the encode, create, poll and retrieve steps. The reports start at 0.05, all lie in [0, 1], and a generated video ends them at 0.9 with a non-empty URL. |
| VideoService.GenerateVideo | PetFlixAI/services/VideoService.ts:428-487 | The result is that of the run. A hit reports only 1 and spends nothing. A generated URL is charged once for 10 seconds. The cache is left as `_checkCache` leaves it and, for a generated URL, as `_cacheResult` then writes it; whenever a non-empty key was made and the write works, that key finds the URL. A run stopped before the cache leaves it alone. Nothing else changes the ledger. The last report is always 1. |
| VideoService.GenerateWithDetails | PetFlixAI/services/VideoService.ts:434-487 | For a given theme answer, the same effects as `generateVideo`: the result, the reports, the ledger and the cache follow the run. |
| VideoService.GenerateAndStore | PetFlixAI/services/VideoService.ts:448-475 | After a miss, the run is the generation steps, never a cache hit. A failure leaves the ledger and the cache alone. A generated URL is non-empty, is charged for 10 seconds and is written by `_cacheResult` under the key. The reports end with 1. |
| VideoService.StepFraction | PetFlixAI/services/VideoService.ts:505 | Step k reports k / 5 up to step 5 and 1 after it, always within [0, 1]. |
| VideoService.StepFractionMonotone | PetFlixAI/services/VideoService.ts:504-505 | A later step never reports less. |
| VideoService.StepReporter.constructor | PetFlixAI/services/VideoService.ts:498-501 | No record has been reported yet, and the kept state is 'initializing' at 0. |
| VideoService.StepReporter.UpdateProgress | PetFlixAI/services/VideoService.ts:503-514 | Each update appends one record with the stage, the clip, two total clips, the message and the progress of its step number. |
| VideoService.StepReporter.ErrorRecord | PetFlixAI/services/VideoService.ts:663 | The error record has stage 'error' and the message, at the last reported progress (0 before any). |
| VideoService.StepClipAccounts | PetFlixAI/services/VideoService.ts:541-624 | One pass keeps the accounting. Every clip number is either failed or stored, never both. The new number is failed exactly when its URL is an error. Earlier numbers keep their state. |
| VideoService.ClipUrlNonEmpty | PetFlixAI/services/VideoService.ts:550-574 | A clip URL the loop receives is never empty. |
| VideoService.LoopAccountsForEveryClip | PetFlixAI/services/VideoService.ts:541-624 | After the loop every clip is accounted for. Clip i + 1 is failed exactly when its generation failed. |
| VideoService.LoopKeepsAccounts | PetFlixAI/services/VideoService.ts:541-624 | After every number of passes, each clip so far is either failed or stored, never both. |
| VideoService.LoopFailsExactlyTheFailedClips | PetFlixAI/services/VideoService.ts:541-624 | After n passes, clip i + 1 is failed exactly when its generation failed. |
| VideoService.StepClip | PetFlixAI/services/VideoService.ts:550-623 | No contract. One loop body: a failed clip records its number, a good one appends the clip with its measured or estimated duration, and clip 1 sets the next seed; `StepClipAccounts` states what it preserves. |
| VideoService.LoopUpTo | PetFlixAI/services/VideoService.ts:541-624 | No contract. It is the loop state after n clips; `LoopAccountsForEveryClip` and `LoopFailsExactlyTheFailedClips` state its properties. |
| VideoService.NextSeedRule | PetFlixAI/services/VideoService.ts:552-623 | The second clip starts from the first clip's last frame exactly when the first clip was generated and its frame extracted. Otherwise it starts from the original image, and the last clip does not move the seed. |
| VideoService.StitchRun | PetFlixAI/services/VideoService.ts:631-647 | Stitching fails with the no-clips error exactly when no clip is stored. A success stitches exactly the stored clips. |
| VideoService.BudgetCheckedBeforeTheme | PetFlixAI/services/VideoService.ts:517-531 | A denied budget fails with BUDGET_EXCEEDED even for an unknown theme. With budget, 'superhero' fails with INVALID_THEME. |
| VideoService.NoClipsIffBothFailed | PetFlixAI/services/VideoService.ts:541-634 | After both passes, no clip is stored exactly when both clip numbers failed. |
| VideoService.NoClipsOnlyWhenBothFail | PetFlixAI/services/VideoService.ts:541-634 | The run fails for want of clips exactly when it reaches the loop and both clips fail, so one failing clip is tolerated. |
| VideoService.ServiceRun | PetFlixAI/services/VideoService.ts:492-669 | No contract. It runs the network, key and budget checks, the prompts, the clip loop and the stitching; `ServiceSuccessHasClips` and `BudgetCheckedBeforeTheme` state its properties and `GenerateNarrativeVideo` follows it. |
| VideoService.GenerateOneClip | PetFlixAI/services/VideoService.ts:550-574 | It returns the URL outcome of steps 1 and 2 for the clip, and a URL is never empty. |
| VideoService.FinishClip | PetFlixAI/services/VideoService.ts:565-623 | The loop variables move as one pass says. A generated clip adds one record and one stored clip, and is charged for 10 seconds when the cost file can be written. A failed clip changes neither. |
| VideoService.ChargesAreProduct | PetFlixAI/services/VideoService.ts:567 | n charges of one cost add up to n times that cost. |
| VideoService.GenerateClipsInTurn | PetFlixAI/services/VideoService.ts:541-624 | The loop's result is that of the two passes. It makes two plus one record per stored clip, and charges 10 seconds per stored clip when the cost file can be written. |
| VideoService.ErrorAfterUpdates | PetFlixAI/services/VideoService.ts:659-668 | The error record follows the updates without changing them, and repeats the last progress. |
| VideoService.Fail | PetFlixAI/services/VideoService.ts:659-668 | A failure returns the error result, and the records end with the error record after the updates made so far. |
| VideoService.StitchAndFinish | PetFlixAI/services/VideoService.ts:636-657 | The result is that of stitching the stored clips. The records keep the steady update trail. |
| VideoService.RunApproved | PetFlixAI/services/VideoService.ts:529-668 | After an approved budget, the result is that of the run, with the records' trail. The ledger is charged once per stored clip, and is unchanged when the loop is not reached. |
| VideoService.GenerateNarrativeVideo | PetFlixAI/services/VideoService.ts:492-669 | The budget for five 10-second clips is checked first. A denied budget emits only the error record at 0. The result is that of the run. Spend is recorded once per stored clip, and the records follow the update trail. |
| VideoService.ServiceSuccessHasClips | PetFlixAI/services/VideoService.ts:631-657 | A success stitched one or two clips. Each has a non-empty URL and its measured or estimated duration. |
| VideoService.SuccessReachesOneBeforeComplete | PetFlixAI/services/VideoService.ts:498-649 | With five steps planned, the first record reports 0.2, and a success already reports 1 at the stitching record. |
| FrameExtractor.VideoPath | PetFlixAI/services/VideoFrameExtractor.ts:43-46 | The temporary video path is never empty and ends in '.mp4'. |
| FrameExtractor.FrameTime | PetFlixAI/services/VideoFrameExtractor.ts:97 | No contract. It is max(0, duration - 100); `FrameTimeNearEnd` states that the frame lies inside the clip, 100 ms from its end. |
| FrameExtractor.FrameTimeNearEnd | PetFlixAI/services/VideoFrameExtractor.ts:97 | For a positive duration, the frame time lies inside the clip, at most 100 ms before its end. It is exactly 100 ms before the end of a clip of at least 100 ms, and 0 for a shorter one. |
| FrameExtractor.LoadDuration | PetFlixAI/services/VideoFrameExtractor.ts:56-91 | The duration is read exactly when the sound is created, loaded, has a positive duration and unloads without throwing. A load failure carries the LOAD_VIDEO_FAILED prefix. An unload that throws replaces the outcome with its own error. |
| FrameExtractor.TryBlock | PetFlixAI/services/VideoFrameExtractor.ts:40-118 | No contract. It runs the outer try block step by step and records the locals it sets; `SuccessIffEveryStepSucceeds` and `CreatedFilesAreTheTemporaryPaths` state its properties. |
| FrameExtractor.Classify | PetFlixAI/services/VideoFrameExtractor.ts:120-131 | No contract. It gives the rejection message from the catch's branch order; `DownloadThrowIsReportedAsThumbnailFailure`, `ReadFailureIsFileReadFailure` and `UnknownOnlyWhenDirectoryFails` state its cases. |
| FrameExtractor.Extract | PetFlixAI/services/VideoFrameExtractor.ts:33-150 | No contract. It is the try block's value, or its error classified by the catch; `GetLastFrameFromUrlAsBase64` returns it. |
| FrameExtractor.Cleanup | PetFlixAI/services/VideoFrameExtractor.ts:133-149 | No contract. It deletes the thumbnail and then the video, stopping at a failed delete; `CleanupRemovesEverySetPath` and `FailedThumbnailDeleteKeepsVideo` state its cases. |
| FrameExtractor.Device.constructor | PetFlixAI/services/VideoFrameExtractor.ts:33-38 | The device starts with the given files and no open sound. |
| FrameExtractor.GetLastFrameFromUrlAsBase64 | PetFlixAI/services/VideoFrameExtractor.ts:33-150 | The call resolves or rejects as the try block and its catch decide. The files left are those before, plus those written, minus what the cleanup deletes. A sound stays open only when its unload threw. |
| FrameExtractor.DownloadStatusOtherThan200Fails | PetFlixAI/services/VideoFrameExtractor.ts:48-52 | A completed download with any status other than 200 rejects with exactly DOWNLOAD_FAILED. |
| FrameExtractor.LoadFailuresArePrefixed | PetFlixAI/services/VideoFrameExtractor.ts:57-91 | A load that throws, an unloaded status, or a missing or non-positive duration rejects with the LOAD_VIDEO_FAILED prefix, provided no unload throws. |
| FrameExtractor.SuccessIffEveryStepSucceeds | PetFlixAI/services/VideoFrameExtractor.ts:40-118 | The call succeeds exactly when every step does. The result is then the JPEG data URI of the text read, with the duration in seconds, which is positive. |
| FrameExtractor.DownloadThrowIsReportedAsThumbnailFailure | PetFlixAI/services/VideoFrameExtractor.ts:120-127 | A download that throws is reported as THUMBNAIL_FAILED with its message, since the video path is set and no thumbnail exists yet. |
| FrameExtractor.ThumbnailThrowIsThumbnailFailure | PetFlixAI/services/VideoFrameExtractor.ts:100-127 | A thumbnail generator that throws is reported as THUMBNAIL_FAILED with its message. |
| FrameExtractor.ReadFailureIsFileReadFailure | PetFlixAI/services/VideoFrameExtractor.ts:109-128 | A thumbnail that exists but cannot be read is reported as FILE_READ_FAILED with the read error. |
| FrameExtractor.UnknownOnlyWhenDirectoryFails | PetFlixAI/services/VideoFrameExtractor.ts:120-131 | The UNKNOWN branch is reached only when making the temporary directory fails. |
| FrameExtractor.DirectoryFailureIsUnknown | PetFlixAI/services/VideoFrameExtractor.ts:43-44 | A directory failure rejects with the UNKNOWN prefix and its message. |
| FrameExtractor.CreatedFilesAreTheTemporaryPaths | PetFlixAI/services/VideoFrameExtractor.ts:43-109 | The run writes only its temporary video and thumbnail paths, and a thumbnail only once the video path is set. |
| FrameExtractor.CleanupRemovesEverySetPath | PetFlixAI/services/VideoFrameExtractor.ts:133-149 | When neither delete throws, cleanup removes exactly the temporary paths that were set. |
| FrameExtractor.FailedThumbnailDeleteKeepsVideo | PetFlixAI/services/VideoFrameExtractor.ts:136-148 | A thumbnail delete that throws skips the video delete, so both files stay. |
| FrameExtractor.NoFileLeftBehind | PetFlixAI/services/VideoFrameExtractor.ts:133-149 | On every path through the call, with deletes that succeed, the device keeps exactly the files it had before, less any at a temporary path. |
| FrameExtractor.ResultIgnoresCleanup | PetFlixAI/services/VideoFrameExtractor.ts:133-149 | The deletes never change what the call resolves to or rejects with. |
| SetupEnv.Substring | PetFlixAI/utils/setupEnv.ts:63-69 | Within bounds, substring is the slice between its two indices. |
| SetupEnv.StripQuotes | PetFlixAI/utils/setupEnv.ts:66-70 | No contract. It strips one pair of matching wrapping quotes; `StripQuotesRemovesTheWrappingPair` and `StripQuotesKeepsOtherValues` state its cases. |
| SetupEnv.StripQuotesRemovesTheWrappingPair | PetFlixAI/utils/setupEnv.ts:66-70 | A text wrapped in a matching pair of double or single quotes loses exactly that pair. |
| SetupEnv.StripQuotesKeepsOtherValues | PetFlixAI/utils/setupEnv.ts:66-70 | A lone quote character is kept, because the swapped substring bounds give the whole value. A value without a matching pair is unchanged. |
| SetupEnv.LinesThatSetNothing | PetFlixAI/utils/setupEnv.ts:55-62 | Blank lines, comment lines, lines without '=' and lines starting with '=' set nothing. |
| SetupEnv.ParseLine | PetFlixAI/utils/setupEnv.ts:55-73 | No contract. A blank or comment line sets nothing; otherwise a first "=" past the start splits the trimmed key from the trimmed, unquoted value; `LinesThatSetNothing` and `ParseLineOfAssignment` state its cases. |
| SetupEnv.ParseLineOfAssignment | PetFlixAI/utils/setupEnv.ts:60-72 | 'key=value' gives the trimmed key and the trimmed, unquoted value. Only the first '=' splits. |
| SetupEnv.Entries | PetFlixAI/utils/setupEnv.ts:53-54 | There is one entry per line, each what that line sets. |
| SetupEnv.AssignStep | PetFlixAI/utils/setupEnv.ts:72 | Each entry that sets a variable overwrites the map built from the lines before it. |
| SetupEnv.KeysComeFromEntries | PetFlixAI/utils/setupEnv.ts:50-77 | A key is in the result exactly when some line sets it. |
| SetupEnv.LastOccurrenceWins | PetFlixAI/utils/setupEnv.ts:50-77 | For a repeated key, the value of the last line that sets it wins. |
| SetupEnv.ParseEnv | PetFlixAI/utils/setupEnv.ts:50-77 | No contract. It folds the parsed lines into a map, later lines overwriting; `KeysComeFromEntries` and `LastOccurrenceWins` state its properties and `ParseEnvFile` computes it. |
| SetupEnv.ReadLine | PetFlixAI/utils/setupEnv.ts:55-71 | One pass of the loop body gives what the line sets, as the parser specifies. |
| SetupEnv.ParseEnvFile | PetFlixAI/utils/setupEnv.ts:50-77 | The loop builds the parsed map of the content's lines. |
| SetupEnv.MissingVars | PetFlixAI/utils/setupEnv.ts:90 | A name is missing exactly when it is listed and unset or empty, and the list is never longer than the names. |
| SetupEnv.IsSet | PetFlixAI/utils/setupEnv.ts:90 | No contract. A variable is set when present and non-empty, as `!process.env[name]` reads it. |
| SetupEnv.VerifyEnvVars | PetFlixAI/utils/setupEnv.ts:82-98 | The check passes exactly when every required variable is set and non-empty. |
| SetupEnv.VerifyEnvVarsNamesTheFour | PetFlixAI/utils/setupEnv.ts:83-88 | The four required names are VIDU_API_KEY, SHOTSTACK_API_KEY, EXPO_PUBLIC_VIDU_BASE_URL and EXPO_PUBLIC_SHOTSTACK_API_URL. |
| SetupEnv.ManualLoadOverwrites | PetFlixAI/utils/setupEnv.ts:30-33 | Every parsed key takes its parsed value, every other variable keeps its value, and nothing else is added. |
| SetupEnv.ManualLoad | PetFlixAI/utils/setupEnv.ts:8-45 | No contract. It gives no variables on the web, without a document directory or when the file cannot be read, and otherwise the old variables overwritten by the parsed ones; `ManualLoadOverwrites` states the overwrite. |
| SetupEnv.ProcessEnv.constructor | PetFlixAI/utils/setupEnv.ts:31-33 | The environment holds the given variables. |
| SetupEnv.LoadEnvManually | PetFlixAI/utils/setupEnv.ts:8-45 | It returns true exactly when the platform is not web, the document directory is known and the file is read. The environment is then the loaded one, and otherwise unchanged. |
| SetupEnv.InitializeEnvironment | PetFlixAI/utils/setupEnv.ts:104-121 | Variables that already verify are left alone. Otherwise the manual loader runs, and the outcome is "loaded" exactly when the loaded variables verify. |
| SetupEnv.UnmentionedVariableStaysMissing | PetFlixAI/utils/setupEnv.ts:104-121 | A required variable that is unset and that no line of the file sets still fails the check after loading. |
| ApiKeyValidator.LeadingDigits | PetFlixAI/utils/apiKeyValidator.ts:13 | The digit run covers at most the whole text, holds only digits, and stops at a non-digit. |
| ApiKeyValidator.ValidateViduApiKey | PetFlixAI/utils/apiKeyValidator.ts:8-20 | No contract. It is a non-empty key matching the pattern; `ValidateIffKeyShape` states the equivalence with the pattern's language. |
| ApiKeyValidator.LeadingDigitsStopsAt | PetFlixAI/utils/apiKeyValidator.ts:13 | A digit prefix ending before a non-digit is exactly the digit run. |
| ApiKeyValidator.ValidateIffKeyShape | PetFlixAI/utils/apiKeyValidator.ts:8-20 | The test accepts exactly 'vda_', one or more digits, '_' and one or more ASCII letters or digits, with nothing around them. |
| ApiKeyValidator.ValidKeyHasNoSpace | PetFlixAI/utils/apiKeyValidator.ts:13 | A valid key has no space and at least seven characters. |
| ApiKeyValidator.ValidateExamples | PetFlixAI/utils/apiKeyValidator.ts:8-20 | The empty key, the placeholder, a key with a space and a key without digits fail. 'vda_123_Ab9' passes. |
| ApiKeyValidator.SpacedKeyRejected | PetFlixAI/utils/apiKeyValidator.ts:8-20 | A key with a space inside its suffix fails. |
| ApiKeyValidator.MissingDigitsRejected | PetFlixAI/utils/apiKeyValidator.ts:8-20 | A key with no digits between the underscores fails. |
| ApiKeyValidator.WellFormedKeyAccepted | PetFlixAI/utils/apiKeyValidator.ts:8-20 | 'vda_123_Ab9' passes. |
| ApiKeyValidator.CheckApiKeyExpiry | PetFlixAI/utils/apiKeyValidator.ts:28-32 | Every key is reported as not expired, without an expiry date. |
| ApiKeyValidator.DiagnoseApiKeyIssues | PetFlixAI/utils/apiKeyValidator.ts:39-59 | No contract. It names the first failing check in the order empty, placeholder, format, spaces; `DiagnosisNoneIffValid`, `SpaceCheckUnreachable` and `DiagnosisOrder` state its properties. |
| ApiKeyValidator.FormatMessage | PetFlixAI/utils/apiKeyValidator.ts:49 | No contract. It quotes the first ten characters of the key in the format message. |
| ApiKeyValidator.DiagnosisNoneIffValid | PetFlixAI/utils/apiKeyValidator.ts:39-59 | The diagnosis finds no issue exactly when the format test passes. |
| ApiKeyValidator.SpaceCheckUnreachable | PetFlixAI/utils/apiKeyValidator.ts:53-55 | The space message is never returned, because a key with a space already fails the format test. |
| ApiKeyValidator.DiagnosisOrder | PetFlixAI/utils/apiKeyValidator.ts:39-50 | The empty key is missing. The placeholder is reported as such, though it also fails the format test. Any other failing key gets the format message. |
| VideoPlayback.NatToStringLength | PetFlixAI/app/video-playback.tsx:205 | A number below 10 prints as one digit, and one below 100 as at most two. |
| VideoPlayback.TwoDigitsOfSmall | PetFlixAI/app/video-playback.tsx:205 | A number below 100 pads to exactly two characters. |
| VideoPlayback.TwoDigitsValue | PetFlixAI/app/video-playback.tsx:205 | The padded text has only digits, is at least two long, and reads back as the number. |
| VideoPlayback.NonPositiveTimeIsZero | PetFlixAI/app/video-playback.tsx:201 | A zero or negative time shows as "00:00". |
| VideoPlayback.ClockTextReadsBack | PetFlixAI/app/video-playback.tsx:202-205 | The text reads back: minutes before the last ':', then two digits of seconds below 60, and minutes * 60 + seconds is the number shown. |
| VideoPlayback.FormatTimeShowsWholeSeconds | PetFlixAI/app/video-playback.tsx:200-206 | A positive time shows its whole seconds, floor(millis / 1000), as the clock text. |
| VideoPlayback.TwoDigitsDecimal | PetFlixAI/app/video-playback.tsx:205 | A number below 100 prints as its tens digit, then its units digit: a single digit gets a leading zero. |
| VideoPlayback.ClockTextDigits | PetFlixAI/app/video-playback.tsx:202-205 | Under 100 minutes the clock text is the two digits of the minutes, ':', then the two digits of the seconds. |
| VideoPlayback.ClockTextOf | PetFlixAI/app/video-playback.tsx:202-205 | The clock text of minutes * 60 + seconds, seconds below 60, is the padded minutes, ':', then the padded seconds. |
| VideoPlayback.ClockTextExamples | PetFlixAI/app/video-playback.tsx:202-205 | 59 s shows "00:59", 61 s "01:01" and 3725 s "62:05". |
| VideoPlayback.FormatTimeExamples | PetFlixAI/app/video-playback.tsx:200-206 | 59999 ms shows "00:59", 61000 ms "01:01", 3725000 ms "62:05" and 0 "00:00". |
| VideoPlayback.FormatTime | PetFlixAI/app/video-playback.tsx:200-206 | No contract. It shows whole minutes and seconds, each with at least two digits, and "00:00" for a non-positive time; `FormatTimeShowsWholeSeconds` and `ClockTextReadsBack` state its properties. |
| VideoPlayback.SeekTarget | PetFlixAI/app/video-playback.tsx:141-146 | No contract. It is the slider value times the duration, a missing duration counting as 0; `SeekWithinDuration` states its bounds. |
| VideoPlayback.ForwardTarget | PetFlixAI/app/video-playback.tsx:148-154 | No contract. It is the current time plus the step, capped at the duration; `ForwardStaysWithinDuration` states its bounds. |
| VideoPlayback.ForwardStaysWithinDuration | PetFlixAI/app/video-playback.tsx:148-154 | Seeking forward never passes the duration, a missing duration counting as 0. It moves by the full step when the end is far enough. |
| VideoPlayback.BackwardStaysAboveZero | PetFlixAI/app/video-playback.tsx:156-162 | Seeking backward never goes below 0, and moves by the full step when the start is far enough. |
| VideoPlayback.BackwardTarget | PetFlixAI/app/video-playback.tsx:156-162 | No contract. It is the current time minus the step, floored at 0; `BackwardStaysAboveZero` states its bounds. |
| VideoPlayback.SeekWithinDuration | PetFlixAI/app/video-playback.tsx:141-146 | A slider value in [0, 1] seeks inside [0, duration]: 0 to the start and 1 to the end. |
| VideoPlayback.SliderValueInUnitRange | PetFlixAI/app/video-playback.tsx:308 | A position inside the clip shows as a value in [0, 1], and as 0 while the duration is 0. |
| VideoPlayback.SliderValue | PetFlixAI/app/video-playback.tsx:308 | No contract. It is the position over the duration when the duration is positive, 0 otherwise; `SliderValueInUnitRange` states it lies in [0, 1] for a position within the clip. |
| VideoPlayback.SliderSeekRoundTrip | PetFlixAI/app/video-playback.tsx:141-146 | Releasing the slider where it stands seeks back to the position it shows, in seconds. |
| VideoPlayback.ThemeDisplayName | PetFlixAI/app/video-playback.tsx:223 | The name shown is one of the table's names or 'Unknown Theme'. |
| VideoPlayback.ThemeDisplayNameExamples | PetFlixAI/app/video-playback.tsx:17-22 | 'fairy-tale' shows "Fairy Tale" and 'sci-fi' "Sci-Fi". 'superhero', the empty id and a missing id show 'Unknown Theme'. |
| VideoPlayback.ThemeDisplayNameKnownIff | PetFlixAI/app/video-playback.tsx:17-22 | An id shows a name other than 'Unknown Theme' exactly when it is in the table. |
| VideoPlayback.Player.constructor | PetFlixAI/app/video-playback.tsx:24-26 | The player starts with the given duration and no position. |
| VideoPlayback.Player.Seek | PetFlixAI/app/video-playback.tsx:141-146 | The position becomes the value times the duration, or 0 without one. The duration is unchanged. |
| VideoPlayback.Player.SeekForward | PetFlixAI/app/video-playback.tsx:148-154 | The position becomes the forward target, and the duration is unchanged. |
| VideoPlayback.Player.SeekBackward | PetFlixAI/app/video-playback.tsx:156-162 | The position becomes the backward target, and the duration is unchanged. |
| VideoPlayback.Player.Replay | PetFlixAI/app/video-playback.tsx:164-169 | The position returns to 0, and the duration is unchanged. |

## Left out

- Console logging, `Alert.alert` dialogs and the development-only start-up check `_checkApiConfigStartup` (VideoService.ts:163-175) are not modelled: they have no effect on results.
- `alertIfApiKeyIssues` (apiKeyValidator.ts:65-72) is not modelled: it only shows the diagnosis in a dialog.
- Rendering, navigation, orientation, volume, the controls timer and player events of the playback screen are not modelled. `handleReplay` is modelled without its `player.play()` call.
- The network reachability check and the key and group-id check are booleans of the service datatypes (`networkOk`, `configured`). Expo's network API and the environment variables behind them are not modelled.
- `fetch`, the file system, expo-crypto, expo-av, the thumbnail generator, the image manipulator, the asset loader and AsyncStorage are oracles: datatype fields of function type. Their internals are not modelled.
- The SHA-256 digest is a function parameter. It is not assumed to be injective.
- The cache's file system is three flags of the service: whether a read of the metadata works, whether the reset after a failed or corrupt read works, and whether a write works. The same read flags serve the read in `checkCache` and the read in `cacheResult`. A failure inside `ensureCacheDirExists` (CacheService.ts:8-20) counts as a failure of the step that calls it. A reset or write that leaves part of a file is not modelled.
- `setTimeout` sleeps have no logical effect and are not modelled. The clock of the MiniMax polling loop is an input (`VideoService.PollScript`), constrained only to move forward by at least the polling interval after each attempt.
- Asynchronous calls run as sequential steps in program order. The unawaited `Promise.all` of cost and cache writes in `generateVideo` (VideoService.ts:468-473) is modelled as running to completion, cost first, before the result is returned.
- Numbers are exact reals. `NaN`, `Infinity`, IEEE rounding and `toFixed` are not modelled, so `formatTime(NaN)` is not covered.
- ImageUtils.ValidateAndPrepareImage: requires a probe that reports positive width and height. A zero side makes the source's scale factor Infinity or NaN, which is not modelled.
- ImageUtils.ConvertImageToBase64: has the same positive-side requirement as `validateAndPrepareImage`, for the same reason.
- Cache.CacheMimeType: its contract states only that the type is PNG or JPEG. The dependence on the lower-cased text after the last dot is stated by the examples in `Cache.CacheMimeTypeExamples`, because the full equivalence made every proof that carries an encoded image too costly.
- Themes.AddPromptVariation: takes clip numbers as integers. A non-integer `clipNumber` indexes `undefined` in the source and gives the prompt unchanged, which the integer model cannot express.
- The narrative task request (`NarrativeGenerator.TaskRequest`) carries the catalogue clip's prompt id and the clip number rather than the prompt text. The text it sends is `prompt()`, the catalogue text varied for the number, and the video API oracle is a function of the request. This keeps the long catalogue texts out of the proofs about the clip loop.
- The texts of `ERROR_MESSAGES` are not modelled: constants/errorMessages.ts is not part of this model. Each message is its key name, such as "INVALID_THEME"; only their distinctness matters.
- The `.env` record uses ordinary keys. The special behaviour of a `__proto__` key in a JavaScript object is not modelled.
- `queryTaskStatus` of VideoService.ts (line 711) is not modelled: the MiniMax flows do not call it. The commented-out stub at VideoService.ts:676-682 has no code.
- These checks cannot fail and are not modelled as branches:
  - the duration re-check at VideoFrameExtractor.ts:94-96 (the inner block already threw for such a duration);
  - the space check of `diagnoseApiKeyIssues` (its unreachability is proved as `ApiKeyValidator.SpaceCheckUnreachable`);
  - the empty-track check in `createEditPayload`, which always builds one track;
  - the `currentTotalClips === 0` and `generatedClips.length !== total` checks of NarrativeVideoGenerator.ts, which the loop makes impossible.
- `CLEANUP_FAILED` (VideoFrameExtractor.ts:15) is only logged. Cleanup errors are swallowed, as `FrameExtractor.ResultIgnoresCleanup` states.
- SingleVideoGenerator.ts, NetworkService.ts fetch plumbing, envCheck.ts, VideoTypes.ts and the UI screens other than the playback arithmetic are outside the modelled core. NetworkService's constants are used as values.

## Findings

| source | as written | input that shows it | evidently intended | confidence | as-written member | corrected member |
|---|---|---|---|---|---|---|
| PetFlixAI/constants/referenceImages.ts:53-55 | `getReferenceImageById` compares the argument with each record's `id` field ('frog_dragon', 'leaf'), but the theme catalogue refers to the records by their table keys. | `getReferenceImageById("FROG_DRAGON")` returns `undefined`, so a catalogue clip sends the user image alone. | Look the reference up by its table key, so that "FROG_DRAGON" and "LEAF" resolve to their images. | not executed | `ReferenceImages.FrogDragonNotFoundAsWritten` | `ReferenceImages.CatalogueReferencesResolve` |

The task request follows the code as written: `ViduApi.CreateApiTask` looks the references up with `getReferenceImageById`, and `ViduApi.CatalogueClipSendsUserImageOnlyAsWritten` states that a catalogue clip then sends the user image alone. With the lookup by table key, `ViduApi.CatalogueClipSendsEveryReferenceByKey` states that the same references give one image each after the user image.
