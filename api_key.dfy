/** The Vidu API key checks (`apiKeyValidator`): the format test, the
    placeholder expiry check, and the ordered diagnosis that names the
    first problem found. */
module ApiKeyValidator {
  import opened Wrappers
  import Strings

  const KeyPrefix: string := "vda_"
  const Placeholder: string := "YOUR_VIDU_API_KEY"

  const MissingMessage: string := "API key is missing. Please check your .env file."
  const PlaceholderMessage: string :=
    "API key is set to the default placeholder value. Please replace with your actual Vidu API key."
  const SpacesMessage: string := "API key contains spaces, which is invalid."

  /** The message for a key of the wrong format, quoting its first ten
      characters (`apiKey.substring(0, 10)`). */
  function FormatMessage(apiKey: string): string {
    var shown := if |apiKey| <= 10 then apiKey else apiKey[..10];
    "API key format appears invalid: \"" + shown
      + "...\". Vidu API keys typically start with \"vda_\" followed by numbers."
  }

  /** The number of ASCII digits `s` starts with: what the greedy `\d+`
      consumes. */
  function LeadingDigits(s: string): (n: nat)
    ensures n <= |s|
    ensures Strings.AllDigits(s[..n])
    ensures n < |s| ==> !Strings.IsDigit(s[n])
  {
    if s != [] && Strings.IsDigit(s[0]) then
      var n := 1 + LeadingDigits(s[1..]);
      assert s[..n] == [s[0]] + s[1..][..n - 1];
      n
    else 0
  }

  predicate AllAlnum(s: string) {
    forall i :: 0 <= i < |s| ==> Strings.IsAsciiAlnum(s[i])
  }

  /** `/^vda_\d+_[A-Za-z0-9]+$/.test(apiKey)`, decided left to right: the
      digit run ends at the first non-digit, so it can only be followed by
      the '_' there. */
  predicate MatchesKeyFormat(apiKey: string) {
    && Strings.StartsWith(apiKey, KeyPrefix)
    && var rest := apiKey[|KeyPrefix|..];
       var n := LeadingDigits(rest);
       && 1 <= n && n + 1 < |rest| && rest[n] == '_'
       && AllAlnum(rest[n + 1..])
  }

  /** `validateViduApiKey(apiKey)` */
  predicate ValidateViduApiKey(apiKey: string) {
    apiKey != "" && MatchesKeyFormat(apiKey)
  }

  /** The language of the pattern, stated directly: "vda_", then one or
      more digits, then '_', then one or more letters or digits; nothing
      before or after. */
  ghost predicate KeyShape(s: string) {
    && |s| >= 4 && s[..4] == "vda_"
    && exists n :: 4 < n < |s| - 1 && Strings.AllDigits(s[4..n]) && s[n] == '_' && AllAlnum(s[n + 1..])
  }

  lemma {:induction false} LeadingDigitsStopsAt(s: string, k: nat)
    requires k < |s| && Strings.AllDigits(s[..k]) && !Strings.IsDigit(s[k])
    ensures LeadingDigits(s) == k
  {
    if k > 0 {
      assert Strings.IsDigit(s[..k][0]);
      assert s[1..][..k - 1] == s[1..k];
      assert forall i :: 0 <= i < k - 1 ==> s[1..k][i] == s[..k][i + 1];
      LeadingDigitsStopsAt(s[1..], k - 1);
    }
  }

  /** The format test accepts exactly the keys of the pattern's language. */
  lemma ValidateIffKeyShape(s: string)
    ensures ValidateViduApiKey(s) <==> KeyShape(s)
  {
    if ValidateViduApiKey(s) {
      var rest := s[4..];
      var n := LeadingDigits(rest);
      assert s[4..4 + n] == rest[..n];
      assert s[4 + n + 1..] == rest[n + 1..];
      assert s[4 + n] == '_';
    }
    if KeyShape(s) {
      var n :| 4 < n < |s| - 1 && Strings.AllDigits(s[4..n]) && s[n] == '_' && AllAlnum(s[n + 1..]);
      var rest := s[4..];
      assert rest[..n - 4] == s[4..n];
      assert !Strings.IsDigit(rest[n - 4]);
      LeadingDigitsStopsAt(rest, n - 4);
      assert rest[n - 4 + 1..] == s[n + 1..];
      assert Strings.StartsWith(s, KeyPrefix);
    }
  }

  /** A valid key has no space and at least seven characters. */
  lemma ValidKeyHasNoSpace(s: string)
    requires ValidateViduApiKey(s)
    ensures ' ' !in s && |s| >= 7
  {
    var rest := s[4..];
    var n := LeadingDigits(rest);
    assert s == s[..4] + rest[..n] + [rest[n]] + rest[n + 1..];
    assert s[..4] == "vda_";
    var digits := rest[..n];
    var tail := rest[n + 1..];
    assert forall i :: 0 <= i < |digits| ==> Strings.IsDigit(digits[i]);
    assert forall i :: 0 <= i < |tail| ==> Strings.IsAsciiAlnum(tail[i]);
    forall i | 0 <= i < |s|
      ensures s[i] != ' '
    {
      if i < 4 {
        assert s[i] == "vda_"[i];
      } else if i < 4 + n {
        assert s[i] == digits[i - 4];
      } else if i > 4 + n {
        assert s[i] == tail[i - 4 - n - 1];
      }
    }
  }

  /** The empty key, the placeholder and a key with a space fail the test;
      a well-formed key passes. */
  lemma ValidateExamples()
    ensures !ValidateViduApiKey("")
    ensures !ValidateViduApiKey(Placeholder)
    ensures !ValidateViduApiKey("vda_12_ab cd")
    ensures !ValidateViduApiKey("vda__ab")
    ensures ValidateViduApiKey("vda_123_Ab9")
  {
    assert Placeholder[..4] != KeyPrefix by { assert Placeholder[0] == 'Y'; }
    SpacedKeyRejected();
    MissingDigitsRejected();
    WellFormedKeyAccepted();
  }

  lemma SpacedKeyRejected()
    ensures !ValidateViduApiKey("vda_12_ab cd")
  {
    var spaced := "vda_12_ab cd"[4..];
    assert spaced == "12_ab cd";
    LeadingDigitsStopsAt(spaced, 2);
    assert spaced[3..][2] == ' ';
  }

  lemma MissingDigitsRejected()
    ensures !ValidateViduApiKey("vda__ab")
  {
    var r := "vda__ab"[4..];
    assert r[0] == '_';
  }

  lemma WellFormedKeyAccepted()
    ensures ValidateViduApiKey("vda_123_Ab9")
  {
    var g := "vda_123_Ab9"[4..];
    assert g == "123_Ab9";
    LeadingDigitsStopsAt(g, 3);
    assert g[4..] == "Ab9";
    assert AllAlnum("Ab9");
    assert Strings.StartsWith("vda_123_Ab9", KeyPrefix);
  }

  datatype ExpiryCheck = ExpiryCheck(isExpired: bool, possibleExpiry: Option<int>)

  /** `checkApiKeyExpiry(apiKey)`: no key format encodes an expiry, so every
      key is reported as not expired, without a date. */
  function CheckApiKeyExpiry(apiKey: string): (r: ExpiryCheck)
    ensures !r.isExpired && r.possibleExpiry.None?
  {
    ExpiryCheck(false, None)
  }

  /** The problems `diagnoseApiKeyIssues` can name. */
  datatype Issue = Missing | PlaceholderValue | InvalidFormat(apiKey: string) | ContainsSpaces {
    /** The message returned for the problem. */
    function Message(): string {
      match this
      case Missing => MissingMessage
      case PlaceholderValue => PlaceholderMessage
      case InvalidFormat(apiKey) => FormatMessage(apiKey)
      case ContainsSpaces => SpacesMessage
    }
  }

  /** `diagnoseApiKeyIssues(apiKey)`: the first matching check, in order:
      empty, placeholder, format, spaces; None (`null`) when all pass. */
  function DiagnoseApiKeyIssues(apiKey: string): Option<Issue> {
    if apiKey == "" then Some(Missing)
    else if apiKey == Placeholder then Some(PlaceholderValue)
    else if !ValidateViduApiKey(apiKey) then Some(InvalidFormat(apiKey))
    else if ' ' in apiKey then Some(ContainsSpaces)
    else None
  }

  /** The diagnosis finds nothing exactly when the format test passes. */
  lemma DiagnosisNoneIffValid(apiKey: string)
    ensures DiagnoseApiKeyIssues(apiKey).None? <==> ValidateViduApiKey(apiKey)
  {
    if ValidateViduApiKey(apiKey) {
      ValidKeyHasNoSpace(apiKey);
      ValidateExamples();
    }
  }

  /** The space check is never reached: a key that gets past the format
      test has no space. */
  lemma SpaceCheckUnreachable(apiKey: string)
    ensures DiagnoseApiKeyIssues(apiKey) != Some(ContainsSpaces)
  {
    if ValidateViduApiKey(apiKey) {
      ValidKeyHasNoSpace(apiKey);
    }
  }

  /** The checks come in order: the empty key is missing, the placeholder is
      reported as such (though it also fails the format test), and any other
      key that fails the test gets the format message, which quotes at most
      its first ten characters. */
  lemma DiagnosisOrder(apiKey: string)
    ensures DiagnoseApiKeyIssues("") == Some(Missing)
    ensures DiagnoseApiKeyIssues(Placeholder) == Some(PlaceholderValue)
    ensures !ValidateViduApiKey(Placeholder)
    ensures apiKey != "" && apiKey != Placeholder && !ValidateViduApiKey(apiKey) ==>
              DiagnoseApiKeyIssues(apiKey) == Some(InvalidFormat(apiKey))
  {
    assert Placeholder != "";
    ValidateExamples();
  }
}
