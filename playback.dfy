/** The arithmetic of the playback screen: the `mm:ss` time formatter, the
    seek handlers that set the player's position, the slider value and the
    theme display name. Rendering and player events are not modelled; the
    player is the class `Player` with the two fields the handlers read and
    the one they write. */
module VideoPlayback {
  import opened Wrappers
  import Strings
  import JsMath

  /** The display names kept from an earlier theme list. */
  const ThemeDisplayNames: map<string, string> :=
    map["fairy-tale" := "Fairy Tale", "crime-drama" := "Crime Drama", "romance" := "Romance", "sci-fi" := "Sci-Fi"]

  const UnknownTheme: string := "Unknown Theme"

  /** The step of the forward and backward buttons, in seconds. */
  const SkipSeconds: real := 10.0

  /** `n.toString().padStart(2, '0')` */
  function TwoDigits(n: nat): string {
    Strings.PadStart(Strings.NatToString(n), 2, '0')
  }

  /** The `mm:ss` text of a whole number of seconds. */
  function ClockText(totalSeconds: nat): string {
    var seconds := totalSeconds % 60;
    var minutes := totalSeconds / 60;
    TwoDigits(minutes) + ":" + TwoDigits(seconds)
  }

  /** `formatTime(millis)`: "00:00" for zero or a negative time; otherwise
      the whole seconds split into minutes and seconds, each printed with at
      least two digits. */
  function FormatTime(millis: real): string {
    if millis == 0.0 || millis < 0.0 then "00:00"
    else
      var totalSeconds := JsMath.Floor(millis / 1000.0);
      assert totalSeconds >= 0;
      ClockText(totalSeconds)
  }

  lemma {:induction false} NatToStringLength(n: nat)
    ensures n < 10 ==> |Strings.NatToString(n)| == 1
    ensures n < 100 ==> |Strings.NatToString(n)| <= 2
  {
    if n >= 10 {
      NatToStringLength(n / 10);
    }
  }

  /** A number below 100 takes exactly two characters. */
  lemma TwoDigitsOfSmall(n: nat)
    requires n < 100
    ensures |TwoDigits(n)| == 2
  {
    NatToStringLength(n);
  }

  lemma TwoDigitsValue(n: nat)
    ensures Strings.AllDigits(TwoDigits(n)) && Strings.DigitsValue(TwoDigits(n)) == n
    ensures |TwoDigits(n)| >= 2
  {
    Strings.NatToStringValue(n);
    Strings.PadZerosValue(Strings.NatToString(n), 2);
  }

  /** No time, or a negative one, shows as "00:00". */
  lemma NonPositiveTimeIsZero(millis: real)
    requires millis <= 0.0
    ensures FormatTime(millis) == "00:00"
  {
  }

  /** Where the colon splits a clock text, and what the two sides read as. */
  lemma ColonReadBack(m: string, s: string, minutes: nat, seconds: nat)
    requires |m| >= 2 && |s| == 2 && Strings.AllDigits(m) && Strings.AllDigits(s)
    requires Strings.DigitsValue(m) == minutes && Strings.DigitsValue(s) == seconds
    ensures var r := m + ":" + s;
            && |r| >= 5 && r[|r| - 3] == ':'
            && r[..|r| - 3] == m && r[|r| - 2..] == s
            && Strings.AllDigits(r[..|r| - 3]) && Strings.AllDigits(r[|r| - 2..])
            && Strings.DigitsValue(r[..|r| - 3]) == minutes && Strings.DigitsValue(r[|r| - 2..]) == seconds
  {
    var r := m + ":" + s;
    assert r[..|r| - 3] == m;
    assert r[|r| - 2..] == s;
  }

  /** Reading a clock text back: the part before the last ':' holds the
      minutes, the two characters after it the seconds, which are below 60,
      and minutes * 60 + seconds is the number of seconds shown. */
  lemma ClockTextReadsBack(totalSeconds: nat)
    ensures var r := ClockText(totalSeconds);
            && |r| >= 5 && r[|r| - 3] == ':'
            && Strings.AllDigits(r[..|r| - 3]) && Strings.AllDigits(r[|r| - 2..])
            && Strings.DigitsValue(r[|r| - 2..]) < 60
            && Strings.DigitsValue(r[..|r| - 3]) * 60 + Strings.DigitsValue(r[|r| - 2..]) == totalSeconds
  {
    var seconds := totalSeconds % 60;
    var minutes := totalSeconds / 60;
    var m := TwoDigits(minutes);
    var s := TwoDigits(seconds);
    TwoDigitsOfSmall(seconds);
    TwoDigitsValue(seconds);
    TwoDigitsValue(minutes);
    ColonReadBack(m, s, minutes, seconds);
    assert ClockText(totalSeconds) == m + ":" + s;
  }

  /** A positive time shows its whole seconds, floor(millis / 1000), read
      back as above. */
  lemma FormatTimeShowsWholeSeconds(millis: real)
    requires millis > 0.0
    ensures JsMath.Floor(millis / 1000.0) >= 0
    ensures FormatTime(millis) == ClockText(JsMath.Floor(millis / 1000.0))
  {
  }

  /** A number below 100 prints as its tens digit, then its units digit:
      single digits get a leading zero, two digits are kept as they are. */
  lemma TwoDigitsDecimal(n: nat)
    requires n < 100
    ensures TwoDigits(n) == [Strings.DigitChar(n / 10), Strings.DigitChar(n % 10)]
  {
    var t := Strings.NatToString(n);
    if n < 10 {
      assert t == [Strings.DigitChar(n)];
      var r := TwoDigits(n);
      assert |r| == 2 && r[1..] == t && r[0] == '0';
      assert Strings.DigitChar(n / 10) == '0';
    } else {
      assert t == Strings.NatToString(n / 10) + [Strings.DigitChar(n % 10)];
      assert Strings.NatToString(n / 10) == [Strings.DigitChar(n / 10)];
      assert |t| == 2;
      var r := TwoDigits(n);
      assert r[|r| - |t|..] == t;
    }
  }

  /** The clock text of `minutes * 60 + seconds`, seconds below 60. */
  lemma ClockTextOf(totalSeconds: nat, minutes: nat, seconds: nat)
    requires totalSeconds == minutes * 60 + seconds && seconds < 60
    ensures ClockText(totalSeconds) == TwoDigits(minutes) + ":" + TwoDigits(seconds)
  {
    assert totalSeconds / 60 == minutes && totalSeconds % 60 == seconds;
  }

  /** Under 100 minutes, the clock text is five characters: two digits of
      minutes, ':', two digits of seconds. */
  lemma ClockTextDigits(t: nat)
    requires t < 6000
    ensures var m, s := t / 60, t % 60;
            ClockText(t) == [Strings.DigitChar(m / 10), Strings.DigitChar(m % 10), ':',
                             Strings.DigitChar(s / 10), Strings.DigitChar(s % 10)]
  {
    TwoDigitsDecimal(t / 60);
    TwoDigitsDecimal(t % 60);
  }

  /** The clock examples, each stated for a variable bound to the example
      value so that the verifier does not unfold the formatter on a literal;
      the digits of minutes and seconds are worked out first. */
  lemma ClockTextUnderAMinute(t: nat)
    requires t == 59
    ensures ClockText(t) == "00:59"
  {
    assert t / 60 / 10 == 0 && t / 60 % 10 == 0 && t % 60 / 10 == 5 && t % 60 % 10 == 9;
    ClockTextDigits(t);
  }

  lemma ClockTextJustOverAMinute(t: nat)
    requires t == 61
    ensures ClockText(t) == "01:01"
  {
    assert t / 60 / 10 == 0 && t / 60 % 10 == 1 && t % 60 / 10 == 0 && t % 60 % 10 == 1;
    ClockTextDigits(t);
  }

  lemma ClockTextOverAnHour(t: nat)
    requires t == 3725
    ensures ClockText(t) == "62:05"
  {
    assert t / 60 / 10 == 6 && t / 60 % 10 == 2 && t % 60 / 10 == 0 && t % 60 % 10 == 5;
    ClockTextDigits(t);
  }

  /** Minutes are not wrapped into hours: 3725 seconds show as 62 minutes. */
  lemma ClockTextExamples(a: nat, b: nat, c: nat)
    requires a == 59 && b == 61 && c == 3725
    ensures ClockText(a) == "00:59" && ClockText(b) == "01:01" && ClockText(c) == "62:05"
  {
    ClockTextUnderAMinute(a);
    ClockTextJustOverAMinute(b);
    ClockTextOverAnHour(c);
  }

  /** The examples of the formatter: 59.999 s shows "00:59", 61 s "01:01",
      an hour, two minutes and five seconds "62:05", and 0 "00:00". */
  lemma FormatTimeExamples(a: real, b: real, c: real)
    requires a == 59999.0 && b == 61000.0 && c == 3725000.0
    ensures FormatTime(a) == "00:59" && FormatTime(b) == "01:01" && FormatTime(c) == "62:05"
    ensures FormatTime(0.0) == "00:00"
  {
    FormatTimeShowsWholeSeconds(a);
    FormatTimeShowsWholeSeconds(b);
    FormatTimeShowsWholeSeconds(c);
    var x, y, z := JsMath.Floor(a / 1000.0), JsMath.Floor(b / 1000.0), JsMath.Floor(c / 1000.0);
    assert x == 59 by { assert a / 1000.0 == 59.999; }
    assert y == 61 by { assert b / 1000.0 == 61.0; }
    assert z == 3725 by { assert c / 1000.0 == 3725.0; }
    ClockTextExamples(x, y, z);
  }

  /** `value * (player.duration || 0)` */
  function SeekTarget(value: real, duration: Option<real>): real {
    value * JsMath.OrZero(duration)
  }

  /** `Math.min(player.duration || 0, (player.currentTime ?? 0) + amount)` */
  function ForwardTarget(currentTime: Option<real>, duration: Option<real>, amount: real): real {
    JsMath.Min(JsMath.OrZero(duration), JsMath.OrZero(currentTime) + amount)
  }

  /** `Math.max(0, (player.currentTime ?? 0) - amount)` */
  function BackwardTarget(currentTime: Option<real>, amount: real): real {
    JsMath.Max(0.0, JsMath.OrZero(currentTime) - amount)
  }

  /** Seeking forward never passes the end, a missing duration counting as
      0, and moves by the full step when the end is far enough. */
  lemma ForwardStaysWithinDuration(currentTime: Option<real>, duration: Option<real>, amount: real)
    ensures ForwardTarget(currentTime, duration, amount) <= JsMath.OrZero(duration)
    ensures duration.None? ==> ForwardTarget(currentTime, duration, amount) <= 0.0
    ensures JsMath.OrZero(currentTime) + amount <= JsMath.OrZero(duration) ==>
              ForwardTarget(currentTime, duration, amount) == JsMath.OrZero(currentTime) + amount
  {
  }

  /** Seeking backward never goes below 0, and moves by the full step when
      the start is far enough. */
  lemma BackwardStaysAboveZero(currentTime: Option<real>, amount: real)
    ensures BackwardTarget(currentTime, amount) >= 0.0
    ensures JsMath.OrZero(currentTime) >= amount ==>
              BackwardTarget(currentTime, amount) == JsMath.OrZero(currentTime) - amount
  {
  }

  /** A slider value in [0, 1] seeks inside [0, duration]: 0 to the start
      and 1 to the end. */
  lemma SeekWithinDuration(value: real, duration: real)
    requires 0.0 <= value <= 1.0 && duration >= 0.0
    ensures 0.0 <= SeekTarget(value, Some(duration)) <= duration
    ensures SeekTarget(0.0, Some(duration)) == 0.0 && SeekTarget(1.0, Some(duration)) == duration
  {
    assert JsMath.OrZero(Some(duration)) == duration;
    assert SeekTarget(value, Some(duration)) == value * duration;
    assert value * duration <= 1.0 * duration;
  }

  /** `durationMillis > 0 ? positionMillis / durationMillis : 0` */
  function SliderValue(positionMillis: real, durationMillis: real): real {
    if durationMillis > 0.0 then positionMillis / durationMillis else 0.0
  }

  /** The slider shows a position inside the clip as a value in [0, 1], and
      0 while the duration is unknown. */
  lemma SliderValueInUnitRange(positionMillis: real, durationMillis: real)
    requires 0.0 <= positionMillis <= durationMillis
    ensures 0.0 <= SliderValue(positionMillis, durationMillis) <= 1.0
    ensures durationMillis == 0.0 ==> SliderValue(positionMillis, durationMillis) == 0.0
  {
    if durationMillis > 0.0 {
      assert positionMillis / durationMillis * durationMillis == positionMillis;
    }
  }

  /** Releasing the slider where it stands seeks back to the position it
      shows, in seconds, when the player's duration agrees with the one the
      screen holds in milliseconds. */
  lemma SliderSeekRoundTrip(positionMillis: real, durationMillis: real)
    requires durationMillis > 0.0
    ensures SeekTarget(SliderValue(positionMillis, durationMillis), Some(durationMillis / 1000.0))
            == positionMillis / 1000.0
  {
    var v := positionMillis / durationMillis;
    assert v * durationMillis == positionMillis;
    assert v * (durationMillis / 1000.0) == (v * durationMillis) / 1000.0;
  }

  /** `themeId ? (THEME_DISPLAY_NAMES[themeId] || 'Unknown Theme') : 'Unknown Theme'` */
  function ThemeDisplayName(themeId: Option<string>): (name: string)
    ensures name == UnknownTheme || name in ThemeDisplayNames.Values
  {
    if themeId.Some? && themeId.value != "" && themeId.value in ThemeDisplayNames
       && ThemeDisplayNames[themeId.value] != ""
    then ThemeDisplayNames[themeId.value]
    else UnknownTheme
  }

  /** The listed ids show their names; a missing id and any other id, the
      catalogue's 'superhero' among them, show 'Unknown Theme'. */
  lemma ThemeDisplayNameExamples()
    ensures ThemeDisplayName(Some("fairy-tale")) == "Fairy Tale"
    ensures ThemeDisplayName(Some("sci-fi")) == "Sci-Fi"
    ensures ThemeDisplayName(Some("superhero")) == UnknownTheme
    ensures ThemeDisplayName(Some("")) == UnknownTheme
    ensures ThemeDisplayName(None) == UnknownTheme
  {
  }

  /** An id names a theme exactly when it is in the table. */
  lemma ThemeDisplayNameKnownIff(themeId: string)
    ensures ThemeDisplayName(Some(themeId)) != UnknownTheme <==> themeId in ThemeDisplayNames
  {
    if themeId in ThemeDisplayNames {
      assert themeId == "fairy-tale" || themeId == "crime-drama" || themeId == "romance" || themeId == "sci-fi";
    }
  }

  /** The player the handlers drive; times in seconds, None when the player
      reports none. */
  class Player {
    var currentTime: Option<real>
    var duration: Option<real>

    constructor (duration: Option<real>)
      ensures currentTime == None && this.duration == duration
    {
      currentTime := None;
      this.duration := duration;
    }

    /** `seek(value)` */
    method Seek(value: real)
      modifies this
      ensures currentTime == Some(SeekTarget(value, old(duration)))
      ensures duration == old(duration)
    {
      var newPositionSeconds := value * JsMath.OrZero(duration);
      assert newPositionSeconds == SeekTarget(value, duration);
      currentTime := Some(newPositionSeconds);
    }

    /** `seekForward(amountSeconds)`; the buttons pass `SkipSeconds`. */
    method SeekForward(amountSeconds: real)
      modifies this
      ensures currentTime == Some(ForwardTarget(old(currentTime), old(duration), amountSeconds))
      ensures duration == old(duration)
    {
      var currentPositionSeconds := JsMath.OrZero(currentTime);
      var newPositionSeconds := JsMath.Min(JsMath.OrZero(duration), currentPositionSeconds + amountSeconds);
      currentTime := Some(newPositionSeconds);
    }

    /** `seekBackward(amountSeconds)`; the buttons pass `SkipSeconds`. */
    method SeekBackward(amountSeconds: real)
      modifies this
      ensures currentTime == Some(BackwardTarget(old(currentTime), amountSeconds))
      ensures duration == old(duration)
    {
      var currentPositionSeconds := JsMath.OrZero(currentTime);
      var newPositionSeconds := JsMath.Max(0.0, currentPositionSeconds - amountSeconds);
      currentTime := Some(newPositionSeconds);
    }

    /** `handleReplay()`: back to the start (playback itself is not
        modelled). */
    method Replay()
      modifies this
      ensures currentTime == Some(0.0) && duration == old(duration)
    {
      currentTime := Some(0.0);
    }
  }
}
