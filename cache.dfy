/** The generated-video cache (`CacheService`): a JSON file mapping
    SHA-256 keys of "<imageUri>-<themeId>" to video URLs. The hash is the
    parameter `digest`; every file-system failure is one flag per call. */
module Cache {
  import opened Wrappers
  import Strings

  /** What the metadata file holds before a read. */
  datatype MetadataFile =
    | Absent                               // directory or file missing
    | Corrupt                              // not valid JSON
    | Entries(entries: map<string, string>)

  /** The result of `checkCache`. */
  datatype CacheLookup = CacheLookup(cacheKey: Option<string>, cachedUrl: Option<string>)

  /** The map `readCacheMetadata` returns when the file system works: a
      missing or corrupt file is replaced by `{}`. */
  function Normalized(file: MetadataFile): (m: map<string, string>)
    ensures file.Entries? ==> m == file.entries
    ensures !file.Entries? ==> m == map[]
  {
    if file.Entries? then file.entries else map[]
  }

  /** The string hashed by `generateCacheKey`. */
  function KeyInput(imageUri: string, themeId: string): string {
    imageUri + "-" + themeId
  }

  /** `generateCacheKey` */
  function CacheKey(digest: string -> string, imageUri: string, themeId: string): string {
    digest(KeyInput(imageUri, themeId))
  }

  /** `metadata[key]` read as a truthy URL: absent and empty entries miss. */
  function LookupEntry(m: map<string, string>, key: string): (r: Option<string>)
    ensures r.Some? <==> key in m && m[key] != ""
    ensures r.Some? ==> r.value == m[key]
  {
    if key in m && m[key] != "" then Some(m[key]) else None
  }

  /** The map `cacheResult` writes: only a non-empty key and URL are stored. */
  function PutEntry(m: map<string, string>, key: Option<string>, url: Option<string>): map<string, string> {
    if key.Some? && key.value != "" && url.Some? && url.value != "" then m[key.value := url.value] else m
  }

  /** A stored URL is found again under its key. */
  lemma PutThenLookup(m: map<string, string>, key: string, url: string)
    requires key != "" && url != ""
    ensures LookupEntry(PutEntry(m, Some(key), Some(url)), key) == Some(url)
  {
  }

  /** Storing under one key leaves every other key as it was. */
  lemma PutKeepsOtherKeys(m: map<string, string>, key: Option<string>, url: Option<string>, other: string)
    requires key.None? || other != key.value
    ensures LookupEntry(PutEntry(m, key, url), other) == LookupEntry(m, other)
  {
  }

  /** A missing key or URL stores nothing. */
  lemma PutIgnoresEmpty(m: map<string, string>, key: Option<string>, url: Option<string>)
    requires key.None? || key.value == "" || url.None? || url.value == ""
    ensures PutEntry(m, key, url) == m
  {
  }

  /** For one theme the key input determines the image: equal inputs imply equal URIs. */
  lemma KeyInputInjectiveForTheme(uri1: string, uri2: string, themeId: string)
    requires KeyInput(uri1, themeId) == KeyInput(uri2, themeId)
    ensures uri1 == uri2
  {
    assert uri1 == KeyInput(uri1, themeId)[..|uri1|];
    assert uri2 == KeyInput(uri2, themeId)[..|uri2|];
  }

  /** Across themes the join is ambiguous: two different pairs hash the same string. */
  lemma KeyInputAmbiguousAcrossThemes(digest: string -> string)
    ensures KeyInput("a-b", "c") == KeyInput("a", "b-c")
    ensures CacheKey(digest, "a-b", "c") == CacheKey(digest, "a", "b-c")
  {
  }

  /** The MIME type `encodeImageAsDataUri` picks: png, otherwise jpeg. */
  function CacheMimeType(imageUri: string): (mime: string)
    ensures mime == "image/png" || mime == "image/jpeg"
  {
    if Strings.ToLowerAscii(Strings.AfterLast(imageUri, '.')) == "png" then "image/png" else "image/jpeg"
  }

  /** Only the text after the last dot decides, in any letter case; a name
      without a dot is its own extension. */
  lemma CacheMimeTypeExamples()
    ensures CacheMimeType("a.PNG") == "image/png"
    ensures CacheMimeType("a.png.jpg") == "image/jpeg"
    ensures CacheMimeType("png") == "image/png"
  {
    UpperCaseExtensionIsPng();
    LastExtensionDecides();
    NameWithoutDotIsExtension();
  }

  lemma NameWithoutDotIsExtension()
    ensures CacheMimeType("png") == "image/png"
  {
    Strings.AfterLastWithoutSeparator("png", '.');
    var lowered := Strings.ToLowerAscii("png");
    assert lowered == "png" by {
      assert lowered[0] == 'p' && lowered[1] == 'n' && lowered[2] == 'g';
    }
  }

  lemma UpperCaseExtensionIsPng()
    ensures CacheMimeType("a.PNG") == "image/png"
  {
    Strings.AfterLastOfExtension("a", '.', "PNG");
    assert "a.PNG" == "a" + ['.'] + "PNG";
    assert Strings.ToLowerAscii("PNG") == "png";
  }

  lemma LastExtensionDecides()
    ensures CacheMimeType("a.png.jpg") == "image/jpeg"
  {
    Strings.AfterLastOfExtension("a.png", '.', "jpg");
    assert "a.png.jpg" == "a.png" + ['.'] + "jpg";
    assert Strings.ToLowerAscii("jpg") == "jpg";
  }

  /** `encodeImageAsDataUri`; `base64Read` is the file read, which may fail. */
  function EncodeImageAsDataUri(imageUri: string, base64Read: Result<string>): (r: Result<string>)
    ensures base64Read.Err? <==> r == Err("Failed to load or encode image")
    ensures r.Ok? ==> r.value == DataUriHeader(CacheMimeType(imageUri)) + base64Read.value
  {
    match base64Read
    case Err(_) => Err("Failed to load or encode image")
    case Ok(b64) => Ok(DataUriHeader(CacheMimeType(imageUri)) + b64)
  }

  /** The header of an encoded image. */
  function DataUriHeader(mime: string): string {
    "data:" + mime + ";base64,"
  }

  /** The payload of an encoded image is the file's Base64 text, recoverable
      by dropping the header, and the header names an image type. */
  lemma EncodedPayloadRecoverable(imageUri: string, b64: string)
    ensures var r := EncodeImageAsDataUri(imageUri, Ok(b64));
            var h := DataUriHeader(CacheMimeType(imageUri));
            r.Ok? && Strings.StartsWith(r.value, h) && r.value[|h|..] == b64
            && Strings.StartsWith(h, "data:image/")
  {
    var h := DataUriHeader(CacheMimeType(imageUri));
    var r := h + b64;
    assert r[..|h|] == h;
    assert r[|h|..] == b64;
    assert h[..11] == "data:image/";
  }

  /** What `readCacheMetadata` returns. `readOk` says whether making sure
      the directory and file exist and reading the file work; a failed
      read or a corrupt file lands in the `catch`, which writes `{}` back
      (`resetOk`) and returns `{}`, or throws when that write fails too. */
  function ReadOutcome(file: MetadataFile, readOk: bool, resetOk: bool): (r: Result<map<string, string>>)
    ensures readOk && file.Entries? ==> r == Ok(file.entries)
    ensures r.Err? <==> !resetOk && (!readOk || file.Corrupt?)
    ensures r.Ok? && !(readOk && file.Entries?) ==> r.value == map[]
  {
    if readOk && !file.Corrupt? then Ok(Normalized(file))
    else if resetOk then Ok(map[])
    else Err("file system error")
  }

  /** The metadata file after `readCacheMetadata`: what was returned is
      what the file now holds, unless the call threw. */
  function AfterRead(file: MetadataFile, readOk: bool, resetOk: bool): (after: MetadataFile)
    ensures ReadOutcome(file, readOk, resetOk).Ok? ==> after == Entries(ReadOutcome(file, readOk, resetOk).value)
    ensures ReadOutcome(file, readOk, resetOk).Err? ==> after == file
  {
    var r := ReadOutcome(file, readOk, resetOk);
    if r.Ok? then Entries(r.value) else file
  }

  /** A failed read with a working reset empties the cache: the old entries are gone. */
  lemma FailedReadResetsCache(file: MetadataFile, readOk: bool)
    requires !readOk || file.Corrupt?
    ensures ReadOutcome(file, readOk, true) == Ok(map[])
    ensures AfterRead(file, readOk, true) == Entries(map[])
  {
  }

  /** What `checkCache` answers: no key when the hash or the read throws;
      otherwise the key and its truthy entry in the map that was read. */
  function CheckOutcome(digest: string -> string, file: MetadataFile, imageUri: string, themeId: string,
                        digestOk: bool, readOk: bool, resetOk: bool): (r: CacheLookup)
    ensures !digestOk || ReadOutcome(file, readOk, resetOk).Err? ==> r == CacheLookup(None, None)
    ensures digestOk && ReadOutcome(file, readOk, resetOk).Ok? ==>
              r.cacheKey == Some(CacheKey(digest, imageUri, themeId))
    ensures r.cachedUrl.Some? ==>
              && r.cacheKey == Some(CacheKey(digest, imageUri, themeId))
              && readOk && file.Entries?
              && LookupEntry(file.entries, CacheKey(digest, imageUri, themeId)) == r.cachedUrl
  {
    if !digestOk then CacheLookup(None, None)
    else
      var m := ReadOutcome(file, readOk, resetOk);
      if m.Err? then CacheLookup(None, None)
      else
        var key := CacheKey(digest, imageUri, themeId);
        CacheLookup(Some(key), LookupEntry(m.value, key))
  }

  /** The metadata file after `checkCache`: read only once the key is hashed. */
  function AfterCheck(file: MetadataFile, digestOk: bool, readOk: bool, resetOk: bool): MetadataFile {
    if digestOk then AfterRead(file, readOk, resetOk) else file
  }

  /** The metadata file after `cacheResult`: a non-empty key and URL are put
      into the map that was read and written back; a throwing read stores
      nothing, and a failed write leaves what the read left. */
  function AfterStore(file: MetadataFile, key: Option<string>, url: Option<string>,
                      readOk: bool, resetOk: bool, writeOk: bool): (after: MetadataFile)
    ensures key.None? || key.value == "" || url.None? || url.value == "" ==> after == file
    ensures key.Some? && key.value != "" && url.Some? && url.value != ""
            && ReadOutcome(file, readOk, resetOk).Ok? && writeOk ==>
              after.Entries? && LookupEntry(after.entries, key.value) == url
  {
    if key.None? || key.value == "" || url.None? || url.value == "" then file
    else
      var m := ReadOutcome(file, readOk, resetOk);
      if m.Err? then file
      else if writeOk then Entries(PutEntry(m.value, key, url))
      else Entries(m.value)
  }

  /** Storing after a failed read keeps only the new entry: every other
      cached URL is lost. */
  lemma FailedReadStoresOnlyNewEntry(file: MetadataFile, key: string, url: string)
    requires key != "" && url != ""
    ensures AfterStore(file, Some(key), Some(url), false, true, true) == Entries(map[key := url])
  {
  }

  /** A URL written through after a check that produced a key is found
      under that key, whichever way the two reads went. */
  lemma StoreAfterCheckFinds(digest: string -> string, file: MetadataFile, imageUri: string, themeId: string,
                             digestOk: bool, readOk: bool, resetOk: bool, url: string)
    requires CheckOutcome(digest, file, imageUri, themeId, digestOk, readOk, resetOk).cacheKey.Some?
    requires CacheKey(digest, imageUri, themeId) != "" && url != ""
    ensures var key := CheckOutcome(digest, file, imageUri, themeId, digestOk, readOk, resetOk).cacheKey;
            var after := AfterStore(AfterCheck(file, digestOk, readOk, resetOk), key, Some(url), readOk, resetOk, true);
            after.Entries? && LookupEntry(after.entries, key.value) == Some(url)
  {
    var checked := AfterCheck(file, digestOk, readOk, resetOk);
    assert checked.Entries?;
    assert ReadOutcome(checked, readOk, resetOk).Ok?;
  }

  class CacheService {
    var file: MetadataFile

    constructor (initial: MetadataFile)
      ensures file == initial
    {
      file := initial;
    }

    /** `readCacheMetadata` */
    method ReadCacheMetadata(readOk: bool, resetOk: bool) returns (r: Result<map<string, string>>)
      modifies this
      ensures r == ReadOutcome(old(file), readOk, resetOk)
      ensures file == AfterRead(old(file), readOk, resetOk)
    {
      if readOk && !file.Corrupt? {
        file := Entries(Normalized(file));
        return Ok(file.entries);
      }
      if !resetOk {
        return Err("file system error");
      }
      file := Entries(map[]);
      r := Ok(map[]);
    }

    /** `checkCache`: a failing hash or a throwing read yields no key and no URL. */
    method CheckCache(digest: string -> string, imageUri: string, themeId: string,
                      digestOk: bool, readOk: bool, resetOk: bool)
      returns (lookup: CacheLookup)
      modifies this
      ensures lookup == CheckOutcome(digest, old(file), imageUri, themeId, digestOk, readOk, resetOk)
      ensures file == AfterCheck(old(file), digestOk, readOk, resetOk)
    {
      if !digestOk {
        return CacheLookup(None, None);
      }
      var cacheKey := CacheKey(digest, imageUri, themeId);
      var metadata := ReadCacheMetadata(readOk, resetOk);
      if metadata.Err? {
        return CacheLookup(None, None);
      }
      lookup := CacheLookup(Some(cacheKey), LookupEntry(metadata.value, cacheKey));
    }

    /** `cacheResult`: stores the URL under the key when both are non-empty;
        every failure is swallowed. */
    method CacheResult(cacheKey: Option<string>, videoUrl: Option<string>, readOk: bool, resetOk: bool, writeOk: bool)
      modifies this
      ensures file == AfterStore(old(file), cacheKey, videoUrl, readOk, resetOk, writeOk)
    {
      if cacheKey.Some? && cacheKey.value != "" && videoUrl.Some? && videoUrl.value != "" {
        var metadata := ReadCacheMetadata(readOk, resetOk);
        if metadata.Ok? && writeOk {
          file := Entries(metadata.value[cacheKey.value := videoUrl.value]);
        }
      }
    }
  }

  /** Caching a result and then checking the same image and theme hits that URL. */
  method CacheRoundTrip(digest: string -> string, imageUri: string, themeId: string, url: string,
                        initial: MetadataFile)
    returns (lookup: CacheLookup)
    requires url != "" && digest(KeyInput(imageUri, themeId)) != ""
    ensures lookup == CacheLookup(Some(CacheKey(digest, imageUri, themeId)), Some(url))
  {
    var cache := new CacheService(initial);
    var key := CacheKey(digest, imageUri, themeId);
    cache.CacheResult(Some(key), Some(url), true, true, true);
    lookup := cache.CheckCache(digest, imageUri, themeId, true, true, true);
    PutThenLookup(Normalized(initial), key, url);
  }
}
