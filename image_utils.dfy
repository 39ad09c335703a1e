/** Image preparation for the Vidu API (`imageUtils`): the URI-scheme test,
    the MIME mapping of a file extension, and the dimension and file-size
    rules applied before an image is sent. The image manipulator, the file
    system and `toFixed(2)` are parameters. */
module ImageUtils {
  import opened Wrappers
  import Strings
  import JsMath

  const MinDimension: real := 128.0
  const MaxAspectRatio: real := 4.0
  const MaxSizeMb: real := 50.0
  const BytesPerMb: real := 1048576.0

  /** `isLocalFileUri` */
  predicate IsLocalFileUri(uri: string) {
    Strings.StartsWith(uri, "file://") || Strings.StartsWith(uri, "content://")
  }

  /** Remote http(s) URLs are never treated as local files. */
  lemma HttpUriIsNotLocal(uri: string)
    requires Strings.StartsWith(uri, "http")
    ensures !IsLocalFileUri(uri)
  {
    assert uri[0] == 'h';
  }

  /** The extension `convertImageToBase64` switches on:
      `split('.').pop()?.toLowerCase() || ''`. */
  function Extension(uri: string): (ext: string)
    ensures '.' !in ext && |ext| <= |uri|
  {
    Strings.ToLowerAscii(Strings.AfterLast(uri, '.'))
  }

  /** The `switch (extension)` of `convertImageToBase64`. */
  function MimeTypeFor(ext: string): (mime: string)
    ensures mime in {"image/png", "image/jpeg", "image/webp"}
    ensures mime == "image/png" <==> ext == "png"
    ensures mime == "image/webp" <==> ext == "webp"
    ensures mime == "image/jpeg" <==> ext != "png" && ext != "webp"
  {
    if ext == "png" then "image/png"
    else if ext == "jpg" || ext == "jpeg" then "image/jpeg"
    else if ext == "webp" then "image/webp"
    else "image/jpeg"
  }

  /** The extension is the text after the last '.'. */
  lemma {:induction false} ExtensionAfterDot(name: string, ext: string)
    requires '.' !in ext
    ensures Strings.AfterLast(name + "." + ext, '.') == ext
    decreases |ext|
  {
    var u := name + "." + ext;
    if ext != [] {
      assert u[..|u| - 1] == name + "." + ext[..|ext| - 1];
      ExtensionAfterDot(name, ext[..|ext| - 1]);
    }
  }

  /** Upper-case extensions map like lower-case ones: "photo.PNG" is a PNG. */
  lemma UpperCaseExtensionMaps(name: string)
    ensures Extension(name + ".PNG") == "png"
    ensures MimeTypeFor(Extension(name + ".PNG")) == "image/png"
  {
    ExtensionAfterDot(name, "PNG");
    assert name + ".PNG" == name + "." + "PNG";
    var lowered := Strings.ToLowerAscii("PNG");
    assert lowered[0] == 'p' && lowered[1] == 'n' && lowered[2] == 'g';
    assert lowered == "png";
  }

  datatype Dimensions = Dimensions(width: real, height: real)

  /** Whether the minimum-size rule applies (line 33). */
  predicate TooSmall(d: Dimensions) {
    d.width < MinDimension || d.height < MinDimension
  }

  /** Whether the original aspect ratio is outside [1/4, 4] (lines 42, 47). */
  predicate BadAspect(d: Dimensions)
    requires d.width > 0.0 && d.height > 0.0
  {
    d.width / d.height > MaxAspectRatio || d.width / d.height < 0.25
  }

  /** `needsResize` as the code derives it. */
  predicate NeedsResize(d: Dimensions)
    requires d.width > 0.0 && d.height > 0.0
  {
    TooSmall(d) || BadAspect(d)
  }

  /** `Math.ceil(side * scale)` */
  function ScaleSide(side: real, scale: real): real {
    JsMath.Ceil(side * scale) as real
  }

  /** `Math.max(128 / width, 128 / height)` */
  function ScaleFactor(d: Dimensions): real
    requires d.width > 0.0 && d.height > 0.0
  {
    JsMath.Max(MinDimension / d.width, MinDimension / d.height)
  }

  /** The scale-up step: both sides times max(128/w, 128/h), rounded up. */
  function ScaledUp(d: Dimensions): (s: Dimensions)
    requires d.width > 0.0 && d.height > 0.0
  {
    if TooSmall(d) then Dimensions(ScaleSide(d.width, ScaleFactor(d)), ScaleSide(d.height, ScaleFactor(d)))
    else d
  }

  /** The crop step, driven by the ORIGINAL aspect ratio. */
  function TargetDimensions(d: Dimensions): (t: Dimensions)
    requires d.width > 0.0 && d.height > 0.0
  {
    var s := ScaledUp(d);
    var aspect := d.width / d.height;
    if aspect > MaxAspectRatio then Dimensions(JsMath.Floor(s.height * 4.0) as real, s.height)
    else if aspect < 0.25 then Dimensions(s.width, JsMath.Floor(s.width * 4.0) as real)
    else s
  }

  /** a / y <= a / x for 0 < x <= y and a > 0. */
  lemma DivAntitone(a: real, x: real, y: real)
    requires a > 0.0 && 0.0 < x <= y
    ensures a / y <= a / x
  {
    assert a / y * y == a;
    assert a / x * x == a;
    assert a / x - a / y == a * (y - x) / (x * y);
  }

  /** `(128 / small) * small == 128` and `(128 / small) * large >= 128`. */
  lemma ScaleBySmallerSide(small: real, large: real, k: real)
    requires 0.0 < small <= large && k == MinDimension / small
    ensures small * k == MinDimension
    ensures large * k >= MinDimension
  {
    assert small * k == MinDimension;
    assert large * k - small * k == (large - small) * k;
  }

  lemma ScaleSideBounds(side: real, scale: real)
    ensures side * scale >= MinDimension ==> ScaleSide(side, scale) >= MinDimension
    ensures side * scale == MinDimension ==> ScaleSide(side, scale) == MinDimension
  {
  }

  /** Scaling by 128 over the smaller side makes it exactly 128 and the other at least 128. */
  lemma ScaleBySmallerSideRounded(small: real, large: real, k: real)
    requires 0.0 < small <= large && k == MinDimension / small
    ensures ScaleSide(small, k) == MinDimension && ScaleSide(large, k) >= MinDimension
  {
    ScaleBySmallerSide(small, large, k);
    ScaleSideBounds(small, k);
    ScaleSideBounds(large, k);
  }

  /** Scaling makes both sides at least 128, the smaller side exactly 128. */
  lemma ScaledUpAtLeastMinimum(d: Dimensions)
    requires d.width > 0.0 && d.height > 0.0
    ensures ScaledUp(d).width >= MinDimension && ScaledUp(d).height >= MinDimension
    ensures TooSmall(d) && d.width <= d.height ==> ScaledUp(d).width == MinDimension
    ensures TooSmall(d) && d.height <= d.width ==> ScaledUp(d).height == MinDimension
  {
    if TooSmall(d) {
      var k := ScaleFactor(d);
      if d.width <= d.height {
        DivAntitone(MinDimension, d.width, d.height);
        ScaleBySmallerSideRounded(d.width, d.height, k);
      } else {
        DivAntitone(MinDimension, d.height, d.width);
        ScaleBySmallerSideRounded(d.height, d.width, k);
      }
    }
  }

  /** The prepared dimensions are both at least 128 and, when a resize is
      requested, the aspect ratio lies in [1/4, 4]. */
  lemma TargetDimensionsMeetRequirements(d: Dimensions)
    requires d.width > 0.0 && d.height > 0.0
    ensures TargetDimensions(d).width >= MinDimension && TargetDimensions(d).height >= MinDimension
    ensures BadAspect(d) ==> 0.25 * TargetDimensions(d).height <= TargetDimensions(d).width
                             <= 4.0 * TargetDimensions(d).height
  {
    ScaledUpAtLeastMinimum(d);
    var s := ScaledUp(d);
  }

  /** An image already at least 128 on both sides with a ratio in [1/4, 4]
      is left as it is. */
  lemma CompliantImageUntouched(d: Dimensions)
    requires d.width > 0.0 && d.height > 0.0 && !NeedsResize(d)
    ensures TargetDimensions(d) == d
  {
  }

  /** What the image manipulator and the file system answer. `probe` is the
      no-op manipulation that reports the size, `resized` and `compressed`
      are the URIs of the resize and the recompression, and `sizeBytes` the
      size `getInfoAsync` reports for a URI (None when it reports none, an
      error when the call rejects). */
  datatype ImageEnv = ImageEnv(
    probe: Result<Dimensions>,
    resized: Result<string>,
    compressed: Result<string>,
    sizeBytes: string -> Result<Option<real>>,
    fixed2: real -> string)

  predicate ProbeSane(env: ImageEnv) {
    env.probe.Ok? ==> env.probe.value.width > 0.0 && env.probe.value.height > 0.0
  }

  function OverLimit(env: ImageEnv, uri: string): bool {
    env.sizeBytes(uri).Ok? && env.sizeBytes(uri).value.Some? && env.sizeBytes(uri).value.value / BytesPerMb > MaxSizeMb
  }

  /** The file-size rule of `validateAndPrepareImage` (lines 71-99): a file
      over 50 MB is recompressed once and rejected if still over 50 MB, and
      a size query that rejects fails the rule with its message. */
  function SizeRule(env: ImageEnv, processedUri: string): (r: Result<string>)
    ensures r.Ok? ==> !OverLimit(env, r.value) && env.sizeBytes(r.value).Ok?
    ensures r.Ok? ==> r.value == processedUri || (env.compressed.Ok? && r.value == env.compressed.value)
    ensures env.sizeBytes(processedUri).Ok? && !OverLimit(env, processedUri) ==> r == Ok(processedUri)
    ensures env.sizeBytes(processedUri).Err? ==> r == Err(env.sizeBytes(processedUri).error)
  {
    if env.sizeBytes(processedUri).Err? then Err(env.sizeBytes(processedUri).error)
    else if !OverLimit(env, processedUri) then Ok(processedUri)
    else if env.compressed.Err? then Err(env.compressed.error)
    else if env.sizeBytes(env.compressed.value).Err? then Err(env.sizeBytes(env.compressed.value).error)
    else if OverLimit(env, env.compressed.value)
    then Err("Image still too large after compression: "
             + env.fixed2(env.sizeBytes(env.compressed.value).value.value / BytesPerMb) + "MB")
    else Ok(env.compressed.value)
  }

  /** The dimension steps of `validateAndPrepareImage` (lines 20-52), as the
      code runs them on its locals. */
  method PlanResize(d: Dimensions) returns (needsResize: bool, newWidth: real, newHeight: real)
    requires d.width > 0.0 && d.height > 0.0
    ensures needsResize == NeedsResize(d)
    ensures needsResize ==> Dimensions(newWidth, newHeight) == TargetDimensions(d)
    ensures !needsResize ==> newWidth == d.width && newHeight == d.height
  {
    var width := d.width;
    var height := d.height;
    var aspectRatio := width / height;
    needsResize := false;
    newWidth := width;
    newHeight := height;
    if width < MinDimension || height < MinDimension {
      var scale := JsMath.Max(MinDimension / width, MinDimension / height);
      newWidth := ScaleSide(width, scale);
      newHeight := ScaleSide(height, scale);
      needsResize := true;
    }
    if aspectRatio > MaxAspectRatio {
      newWidth := JsMath.Floor(newHeight * 4.0) as real;
      needsResize := true;
    } else if aspectRatio < 0.25 {
      newHeight := JsMath.Floor(newWidth * 4.0) as real;
      needsResize := true;
    }
  }

  /** The size steps of `validateAndPrepareImage` on the prepared URI. */
  method EnforceSizeLimit(processedUri: string, env: ImageEnv) returns (r: Result<string>)
    ensures r == SizeRule(env, processedUri)
  {
    var uri := processedUri;
    var info := env.sizeBytes(uri);
    if info.Err? {
      return Err(info.error);
    }
    var size := info.value;
    if size.Some? {
      var sizeMb := size.value / BytesPerMb;
      if sizeMb > MaxSizeMb {
        if env.compressed.Err? {
          return Err(env.compressed.error);
        }
        uri := env.compressed.value;
        var compressedInfo := env.sizeBytes(uri);
        if compressedInfo.Err? {
          return Err(compressedInfo.error);
        }
        var compressedSize := compressedInfo.value;
        if compressedSize.Some? {
          var compressedSizeMb := compressedSize.value / BytesPerMb;
          if compressedSizeMb > MaxSizeMb {
            return Err("Image still too large after compression: " + env.fixed2(compressedSizeMb) + "MB");
          }
        }
      }
    }
    r := Ok(uri);
  }

  /** What `validateAndPrepareImage` returns: the probe's failure, the
      resize's failure when a resize is needed, and otherwise the size rule
      on the resized or original URI, every failure under one prefix. */
  function PrepareOutcome(imageUri: string, env: ImageEnv): (r: Result<string>)
    requires ProbeSane(env)
    ensures r.Ok? ==> !OverLimit(env, r.value)
    ensures r.Ok? ==> r.value == imageUri || (env.resized.Ok? && r.value == env.resized.value)
                      || (env.compressed.Ok? && r.value == env.compressed.value)
    ensures r.Err? ==> Strings.StartsWith(r.error, "Failed to prepare image: ")
    ensures (env.probe.Ok? && !NeedsResize(env.probe.value) && env.sizeBytes(imageUri).Ok? && !OverLimit(env, imageUri))
            ==> r == Ok(imageUri)
    ensures (env.probe.Ok? && !NeedsResize(env.probe.value) && env.sizeBytes(imageUri).Err?)
            ==> r == Err("Failed to prepare image: " + env.sizeBytes(imageUri).error)
  {
    if env.probe.Err? then Err("Failed to prepare image: " + env.probe.error)
    else if NeedsResize(env.probe.value) && env.resized.Err? then Err("Failed to prepare image: " + env.resized.error)
    else
      var checked := SizeRule(env, if NeedsResize(env.probe.value) then env.resized.value else imageUri);
      if checked.Ok? then checked else Err("Failed to prepare image: " + checked.error)
  }

  /** `validateAndPrepareImage`. `request` is the resize the code asks the
      manipulator for, if any; every failure is wrapped in one prefix. */
  method ValidateAndPrepareImage(imageUri: string, env: ImageEnv)
    returns (r: Result<string>, request: Option<Dimensions>)
    requires ProbeSane(env)
    ensures env.probe.Err? ==> r == Err("Failed to prepare image: " + env.probe.error) && request.None?
    ensures env.probe.Ok? ==> request == if NeedsResize(env.probe.value)
                                         then Some(TargetDimensions(env.probe.value)) else None
    ensures request.Some? && env.resized.Err? ==> r == Err("Failed to prepare image: " + env.resized.error)
    ensures env.probe.Ok? && (request.None? || env.resized.Ok?) ==>
              var checked := SizeRule(env, if request.Some? then env.resized.value else imageUri);
              r == if checked.Ok? then checked else Err("Failed to prepare image: " + checked.error)
    ensures r.Ok? ==> !OverLimit(env, r.value)
    ensures r.Err? ==> Strings.StartsWith(r.error, "Failed to prepare image: ")
    ensures r == PrepareOutcome(imageUri, env)
  {
    if env.probe.Err? {
      return Err("Failed to prepare image: " + env.probe.error), None;
    }
    var needsResize, newWidth, newHeight := PlanResize(env.probe.value);
    var processedUri := imageUri;
    request := None;
    if needsResize {
      request := Some(Dimensions(newWidth, newHeight));
      if env.resized.Err? {
        return Err("Failed to prepare image: " + env.resized.error), request;
      }
      processedUri := env.resized.value;
    }
    r := EnforceSizeLimit(processedUri, env);
    if r.Err? {
      r := Err("Failed to prepare image: " + r.error);
    }
  }

  /** `convertImageToBase64`: prepares the image, reads it as Base64 and
      prefixes a data-URI header naming the MIME type of the PREPARED file. */
  method ConvertImageToBase64(imageUri: string, env: ImageEnv, readBase64: string -> Result<string>)
    returns (r: Result<string>)
    requires ProbeSane(env)
    ensures r.Err? ==> Strings.StartsWith(r.error, "Failed to convert image: ")
    ensures r.Ok? ==> exists processed: string ::
              readBase64(processed).Ok?
              && r.value == "data:" + MimeTypeFor(Extension(processed)) + ";base64," + readBase64(processed).value
    ensures r == match PrepareOutcome(imageUri, env)
                 case Err(e) => Err("Failed to convert image: " + e)
                 case Ok(u) => match readBase64(u)
                   case Err(e) => Err("Failed to convert image: " + e)
                   case Ok(b) => Ok("data:" + MimeTypeFor(Extension(u)) + ";base64," + b)
  {
    var prepared, _ := ValidateAndPrepareImage(imageUri, env);
    if prepared.Err? {
      return Err("Failed to convert image: " + prepared.error);
    }
    var processedUri := prepared.value;
    var base64 := readBase64(processedUri);
    if base64.Err? {
      return Err("Failed to convert image: " + base64.error);
    }
    var mimeType := MimeTypeFor(Extension(processedUri));
    r := Ok("data:" + mimeType + ";base64," + base64.value);
  }
}
