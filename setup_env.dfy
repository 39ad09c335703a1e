/** The start-up environment loader (`setupEnv`): the `.env` parser, the
    check for the four required variables, the manual loader that copies
    parsed pairs into the process environment, and the start-up decision.

    The process environment is the class `ProcessEnv`, whose `vars` map the
    loader overwrites. The platform facts (web or not, the document
    directory, the file read) are parameters; the empty string stands for a
    missing document directory. */
module SetupEnv {
  import opened Wrappers
  import Strings

  /** `s.substring(start, end)`: both bounds are clamped to [0, |s|] and
      swapped when the start is the larger. */
  function Substring(s: string, start: int, end: int): (r: string)
    ensures 0 <= start <= end <= |s| ==> r == s[start..end]
  {
    var a := if start < 0 then 0 else if start > |s| then |s| else start;
    var b := if end < 0 then 0 else if end > |s| then |s| else end;
    if a <= b then s[a..b] else s[b..a]
  }

  predicate QuotedWith(value: string, q: char) {
    Strings.StartsWith(value, [q]) && Strings.EndsWith(value, [q])
  }

  /** The quote strip of `parseEnvFile`: `value.substring(1, value.length - 1)`
      when the value starts and ends with the same quote character. */
  function StripQuotes(value: string): string {
    if QuotedWith(value, '"') || QuotedWith(value, '\'') then Substring(value, 1, |value| - 1) else value
  }

  /** Wrapping a text in matching quotes and stripping gives the text back:
      exactly the two quote characters go. */
  lemma StripQuotesRemovesTheWrappingPair(inner: string, q: char)
    requires q == '"' || q == '\''
    ensures StripQuotes([q] + inner + [q]) == inner
  {
    var v := [q] + inner + [q];
    assert v[..1] == [q] && v[|v| - 1..] == [q];
    assert v[1..|v| - 1] == inner;
  }

  /** A value that is one quote character stays as it is: the swapped
      substring bounds give the whole value back. A value without a wrapping
      pair is kept unchanged too. */
  lemma StripQuotesKeepsOtherValues(value: string)
    ensures StripQuotes("\"") == "\"" && StripQuotes("'") == "'"
    ensures !QuotedWith(value, '"') && !QuotedWith(value, '\'') ==> StripQuotes(value) == value
    ensures StripQuotes("\"a'") == "\"a'"
  {
    assert QuotedWith("\"", '"');
    assert QuotedWith("'", '\'');
    assert !QuotedWith("\"a'", '"') by { assert "\"a'"[2..] == "'"; }
    assert !QuotedWith("\"a'", '\'') by { assert "\"a'"[..1] == "\""; }
  }

  /** One line of the file: blank lines and comments are skipped; a line
      sets a variable only when its first '=' is not its first character.
      The key is the trimmed text before that '=', the value the trimmed
      rest with one pair of wrapping quotes removed. */
  function ParseLine(line: string): Option<(string, string)> {
    var t := Strings.Trim(line);
    if Strings.StartsWith(t, "#") || t == "" then None
    else
      var i := Strings.IndexOf(line, '=');
      if i > 0 then Some((Strings.Trim(line[..i]), StripQuotes(Strings.Trim(line[i + 1..]))))
      else None
  }

  /** Blank lines and lines whose trimmed text starts with '#' set nothing,
      and neither does a line with no '=' or one that starts with '='. */
  lemma LinesThatSetNothing(line: string)
    ensures Strings.Trim(line) == "" ==> ParseLine(line).None?
    ensures Strings.StartsWith(Strings.Trim(line), "#") ==> ParseLine(line).None?
    ensures '=' !in line ==> ParseLine(line).None?
    ensures line != "" && line[0] == '=' ==> ParseLine(line).None?
  {
  }

  lemma TrimStartAppend(a: string, b: string)
    ensures Strings.TrimStart(a + b) == if Strings.TrimStart(a) == "" then Strings.TrimStart(b) else Strings.TrimStart(a) + b
    decreases |a|
  {
    if a != [] {
      assert (a + b)[1..] == a[1..] + b;
      if Strings.IsJsWhitespace(a[0]) {
        TrimStartAppend(a[1..], b);
      }
    } else {
      assert a + b == b;
    }
  }

  lemma TrimKeepsFirstCharacter(s: string)
    requires Strings.TrimStart(s) != ""
    ensures Strings.Trim(s) != "" && Strings.Trim(s)[0] == Strings.TrimStart(s)[0]
  {
    var x := Strings.TrimStart(s);
    var r := Strings.TrimEnd(x);
    Strings.TrimEndCutsOnlyWhitespace(x);
    Strings.TrimEndIsPrefix(x);
  }

  lemma FirstCharacterNotHash(t: string)
    requires t != "" && t[0] != '#'
    ensures !Strings.StartsWith(t, "#")
  {
    assert t[..1] == [t[0]];
  }

  lemma IndexOfAfterKey(key: string, rest: string)
    requires '=' !in key
    ensures Strings.IndexOf(key + "=" + rest, '=') == |key|
  {
    var line := key + "=" + rest;
    assert line[|key|] == '=';
    assert line[..|key|] == key;
  }

  /** `key=value` parses back to its trimmed key and its trimmed, unquoted
      value, even when the value holds further '=' characters: only the
      first '=' splits. A key of spaces only yields the empty key. */
  lemma ParseLineOfAssignment(key: string, value: string)
    requires key != "" && '=' !in key
    requires !Strings.StartsWith(Strings.Trim(key), "#")
    ensures ParseLine(key + "=" + value) == Some((Strings.Trim(key), StripQuotes(Strings.Trim(value))))
  {
    var line := key + "=" + value;
    IndexOfAfterKey(key, value);
    assert line[..|key|] == key && line[|key| + 1..] == value;
    assert line == key + ("=" + value);
    TrimStartAppend(key, "=" + value);
    var ts := Strings.TrimStart(line);
    if Strings.TrimStart(key) == "" {
      assert ts[0] == '=';
    } else {
      TrimKeepsFirstCharacter(key);
      assert ts[0] == Strings.Trim(key)[0];
      assert Strings.Trim(key)[..1] == [Strings.Trim(key)[0]];
    }
    TrimKeepsFirstCharacter(line);
    FirstCharacterNotHash(Strings.Trim(line));
  }

  /** What each line sets, if anything. */
  function Entries(lines: seq<string>): (entries: seq<Option<(string, string)>>)
    ensures |entries| == |lines|
    ensures forall j :: 0 <= j < |lines| ==> entries[j] == ParseLine(lines[j])
  {
    seq(|lines|, j requires 0 <= j < |lines| => ParseLine(lines[j]))
  }

  /** The map built from the entries read so far: each entry that sets a
      variable overwrites any earlier value of its key. */
  function Assign(entries: seq<Option<(string, string)>>): map<string, string> {
    if entries == [] then map[]
    else Update(Assign(entries[..|entries| - 1]), entries[|entries| - 1])
  }

  function Update(m: map<string, string>, entry: Option<(string, string)>): map<string, string> {
    match entry
    case None => m
    case Some((k, v)) => m[k := v]
  }

  lemma AssignStep(entries: seq<Option<(string, string)>>, i: int)
    requires 0 <= i < |entries|
    ensures Assign(entries[..i + 1]) == Update(Assign(entries[..i]), entries[i])
  {
    assert entries[..i + 1][..i] == entries[..i];
  }

  /** `parseEnvFile(content)` as a value. */
  function ParseEnv(content: string): map<string, string> {
    Assign(Entries(Strings.Split(content, '\n')))
  }

  /** A key is present exactly when some entry sets it. */
  lemma {:induction false} KeysComeFromEntries(entries: seq<Option<(string, string)>>, k: string)
    ensures k in Assign(entries) <==>
            exists j :: 0 <= j < |entries| && entries[j].Some? && entries[j].value.0 == k
  {
    if entries != [] {
      var prefix := entries[..|entries| - 1];
      KeysComeFromEntries(prefix, k);
      assert forall j :: 0 <= j < |prefix| ==> prefix[j] == entries[j];
    }
  }

  /** For a repeated key the last entry that sets it wins. */
  lemma {:induction false} LastOccurrenceWins(entries: seq<Option<(string, string)>>, j: int, k: string, v: string)
    requires 0 <= j < |entries| && entries[j] == Some((k, v))
    requires forall j' :: j < j' < |entries| ==> entries[j'].None? || entries[j'].value.0 != k
    ensures k in Assign(entries) && Assign(entries)[k] == v
    decreases |entries|
  {
    var prefix := entries[..|entries| - 1];
    if j < |entries| - 1 {
      assert forall j' :: j < j' < |prefix| ==> prefix[j'] == entries[j'];
      assert prefix[j] == entries[j];
      LastOccurrenceWins(prefix, j, k, v);
    }
  }

  /** The body of the loop of `parseEnvFile` up to the assignment: skip
      blank and comment lines, split at the first '=', trim both sides and
      remove a wrapping pair of quotes from the value. */
  method ReadLine(line: string) returns (entry: Option<(string, string)>)
    ensures entry == ParseLine(line)
  {
    var trimmed := Strings.Trim(line);
    if Strings.StartsWith(trimmed, "#") || trimmed == "" {
      return None;
    }
    var equalsIndex := Strings.IndexOf(line, '=');
    if equalsIndex <= 0 {
      return None;
    }
    var key := Strings.Trim(line[..equalsIndex]);
    var value := Strings.Trim(line[equalsIndex + 1..]);
    if QuotedWith(value, '"') || QuotedWith(value, '\'') {
      value := Substring(value, 1, |value| - 1);
    }
    return Some((key, value));
  }

  /** `parseEnvFile`: the lines of the content, fed one by one into the
      result map. */
  method ParseEnvFile(content: string) returns (result: map<string, string>)
    ensures result == ParseEnv(content)
  {
    result := map[];
    var lines := Strings.Split(content, '\n');
    ghost var entries := Entries(lines);
    var i := 0;
    while i < |lines|
      invariant 0 <= i <= |lines|
      invariant result == Assign(entries[..i])
    {
      AssignStep(entries, i);
      var entry := ReadLine(lines[i]);
      if entry.Some? {
        var (key, value) := entry.value;
        result := result[key := value];
      }
      i := i + 1;
    }
    assert entries[..|lines|] == entries;
  }

  const RequiredVars: seq<string> :=
    ["VIDU_API_KEY", "SHOTSTACK_API_KEY", "EXPO_PUBLIC_VIDU_BASE_URL", "EXPO_PUBLIC_SHOTSTACK_API_URL"]

  /** `process.env[name]` is truthy: present and not empty. */
  predicate IsSet(vars: map<string, string>, name: string) {
    name in vars && vars[name] != ""
  }

  /** `names.filter(name => !process.env[name])` */
  function MissingVars(vars: map<string, string>, names: seq<string>): (missing: seq<string>)
    ensures |missing| <= |names|
    ensures forall n :: n in missing <==> n in names && !IsSet(vars, n)
  {
    if names == [] then []
    else (if IsSet(vars, names[0]) then [] else [names[0]]) + MissingVars(vars, names[1..])
  }

  /** `verifyEnvVars()`: no required variable is missing. */
  function VerifyEnvVars(vars: map<string, string>): (ok: bool)
    ensures ok <==> forall n :: n in RequiredVars ==> IsSet(vars, n)
  {
    var missing := MissingVars(vars, RequiredVars);
    assert missing != [] ==> missing[0] in missing;
    |missing| == 0
  }

  /** The four names, spelled out. */
  lemma VerifyEnvVarsNamesTheFour(vars: map<string, string>)
    ensures VerifyEnvVars(vars) <==>
            && IsSet(vars, "VIDU_API_KEY") && IsSet(vars, "SHOTSTACK_API_KEY")
            && IsSet(vars, "EXPO_PUBLIC_VIDU_BASE_URL") && IsSet(vars, "EXPO_PUBLIC_SHOTSTACK_API_URL")
  {
    assert RequiredVars[0] == "VIDU_API_KEY" && RequiredVars[1] == "SHOTSTACK_API_KEY";
    assert RequiredVars[2] == "EXPO_PUBLIC_VIDU_BASE_URL" && RequiredVars[3] == "EXPO_PUBLIC_SHOTSTACK_API_URL";
  }

  /** `${documentDir}../.env` */
  function EnvFilePath(documentDirectory: string): string {
    documentDirectory + "../.env"
  }

  function ReadOf(readFile: string -> Result<string>, path: string): Result<string> {
    readFile(path)
  }

  /** The variables after `loadEnvManually`, or None when it returns false:
      on the web, without a document directory, or when the file cannot be
      read. */
  function ManualLoad(vars: map<string, string>, isWeb: bool, documentDirectory: string,
                      readFile: string -> Result<string>): Option<map<string, string>>
  {
    if isWeb || documentDirectory == "" then None
    else
      match ReadOf(readFile, EnvFilePath(documentDirectory))
      case Err(_) => None
      case Ok(content) => Some(vars + ParseEnv(content))
  }

  /** Manual loading overwrites: every parsed key takes the parsed value and
      every other variable keeps its value. */
  lemma ManualLoadOverwrites(vars: map<string, string>, isWeb: bool, documentDirectory: string,
                             readFile: string -> Result<string>)
    requires ManualLoad(vars, isWeb, documentDirectory, readFile).Some?
    ensures var content := ReadOf(readFile, EnvFilePath(documentDirectory)).value;
            var loaded := ManualLoad(vars, isWeb, documentDirectory, readFile).value;
            && loaded.Keys == vars.Keys + ParseEnv(content).Keys
            && (forall k :: k in ParseEnv(content) ==> loaded[k] == ParseEnv(content)[k])
            && (forall k :: k in vars && k !in ParseEnv(content) ==> loaded[k] == vars[k])
  {
  }

  /** The process environment. */
  class ProcessEnv {
    var vars: map<string, string>

    constructor (vars: map<string, string>)
      ensures this.vars == vars
    {
      this.vars := vars;
    }
  }

  /** `loadEnvManually()`: the parsed pairs are copied key by key into the
      environment. */
  method LoadEnvManually(env: ProcessEnv, isWeb: bool, documentDirectory: string,
                         readFile: string -> Result<string>) returns (loaded: bool)
    modifies env
    ensures var outcome := ManualLoad(old(env.vars), isWeb, documentDirectory, readFile);
            && loaded == outcome.Some?
            && env.vars == if outcome.Some? then outcome.value else old(env.vars)
  {
    if isWeb || documentDirectory == "" {
      return false;
    }
    var read := ReadOf(readFile, EnvFilePath(documentDirectory));
    if read.Err? {
      return false;
    }
    var envVars := ParseEnvFile(read.value);
    var keys := envVars.Keys;
    ghost var before := env.vars;
    ghost var copied: set<string> := {};
    while keys != {}
      invariant keys <= envVars.Keys && copied == envVars.Keys - keys
      invariant env.vars.Keys == before.Keys + copied
      invariant forall k :: k in copied ==> env.vars[k] == envVars[k]
      invariant forall k :: k in before && k !in copied ==> env.vars[k] == before[k]
      decreases keys
    {
      var key :| key in keys;
      env.vars := env.vars[key := envVars[key]];
      keys := keys - {key};
      copied := copied + {key};
    }
    assert env.vars == before + envVars;
    return true;
  }

  /** The branch `initializeEnvironment` ends in. */
  datatype InitOutcome = AlreadyLoaded | LoadedManually | StillMissing

  /** `initializeEnvironment()`: nothing is loaded when the variables already
      verify; otherwise the manual loader runs, and the environment counts as
      loaded only when the variables verify afterwards. */
  method InitializeEnvironment(env: ProcessEnv, isWeb: bool, documentDirectory: string,
                               readFile: string -> Result<string>) returns (outcome: InitOutcome)
    modifies env
    ensures VerifyEnvVars(old(env.vars)) ==> outcome == AlreadyLoaded && env.vars == old(env.vars)
    ensures !VerifyEnvVars(old(env.vars)) ==>
              var manual := ManualLoad(old(env.vars), isWeb, documentDirectory, readFile);
              && env.vars == (if manual.Some? then manual.value else old(env.vars))
              && (outcome == LoadedManually <==> manual.Some? && VerifyEnvVars(manual.value))
              && outcome != AlreadyLoaded
  {
    if VerifyEnvVars(env.vars) {
      return AlreadyLoaded;
    }
    var manualLoaded := LoadEnvManually(env, isWeb, documentDirectory, readFile);
    if manualLoaded && VerifyEnvVars(env.vars) {
      return LoadedManually;
    }
    return StillMissing;
  }

  /** The manual loader cannot repair a variable the file does not mention:
      when a required variable is unset and no line of the file sets it, the
      start-up check still fails. */
  lemma UnmentionedVariableStaysMissing(vars: map<string, string>, content: string, name: string)
    requires name in RequiredVars && !IsSet(vars, name)
    requires forall line :: line in Strings.Split(content, '\n') ==> ParseLine(line).None? || ParseLine(line).value.0 != name
    ensures !VerifyEnvVars(vars + ParseEnv(content))
  {
    var lines := Strings.Split(content, '\n');
    var entries := Entries(lines);
    KeysComeFromEntries(entries, name);
    assert forall j :: 0 <= j < |entries| ==> lines[j] in lines;
  }
}
