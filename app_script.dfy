/**
 * `formatDuration` of the dashboard's shared script: a count of seconds shown
 * as "H:MM:SS", or "M:SS" below one hour. Durations are natural numbers here.
 */
module AppScript {
  import opened Wrappers
  import opened Text

  /** `Math.floor(seconds / 3600)`. */
  function Hours(seconds: nat): nat { seconds / 3600 }

  /** `Math.floor((seconds % 3600) / 60)`. */
  function Minutes(seconds: nat): nat { (seconds % 3600) / 60 }

  /** `seconds % 60`. */
  function Secs(seconds: nat): nat { seconds % 60 }

  /** The three fields decompose the duration, minutes and seconds stay below 60, and hours appear from one hour on. */
  lemma FieldsDecompose(seconds: nat)
    ensures Hours(seconds) * 3600 + Minutes(seconds) * 60 + Secs(seconds) == seconds
    ensures Minutes(seconds) < 60 && Secs(seconds) < 60
    ensures Hours(seconds) > 0 <==> seconds >= 3600
  {
    var r := seconds % 3600;
    assert seconds == Hours(seconds) * 3600 + r;
    assert r == Minutes(seconds) * 60 + r % 60;
    assert r % 60 == Secs(seconds) by {
      assert seconds == (Hours(seconds) * 60 + Minutes(seconds)) * 60 + r % 60;
    }
  }

  /** The colon-separated fields of the display: the leading one unpadded, the others padded to two digits. */
  function DurationFields(seconds: nat): seq<string> {
    if Hours(seconds) > 0 then [NatToString(Hours(seconds)), PadTwo(Minutes(seconds)), PadTwo(Secs(seconds))]
    else [NatToString(Minutes(seconds)), PadTwo(Secs(seconds))]
  }

  /** `formatDuration(seconds)`. */
  function FormatDuration(seconds: nat): string {
    Join(DurationFields(seconds), ":")
  }

  /** Reads a "H:MM:SS" or "M:SS" display back into seconds. */
  function ReadDuration(text: string): Option<nat> {
    var parts := Split(text, ":");
    if !(2 <= |parts| <= 3) then None
    else if exists i :: 0 <= i < |parts| && (parts[i] == "" || !AllDigits(parts[i])) then None
    else if exists i :: 1 <= i < |parts| && (|parts[i]| != 2 || DigitsValue(parts[i]) >= 60) then None
    else if |parts| == 2 then Some(DigitsValue(parts[0]) * 60 + DigitsValue(parts[1]))
    else Some(DigitsValue(parts[0]) * 3600 + DigitsValue(parts[1]) * 60 + DigitsValue(parts[2]))
  }

  /**
   * The display has two fields ("M:SS") below one hour and three ("H:MM:SS")
   * from one hour on; every field after the first is two digits below 60; the
   * first is the plain decimal hours or minutes, with no leading zero.
   */
  lemma FormatDurationShape(seconds: nat)
    ensures var parts := Split(FormatDuration(seconds), ":");
      && (|parts| == 2 <==> seconds < 3600)
      && (|parts| == 3 <==> seconds >= 3600)
      && parts[0] == NatToString(if seconds >= 3600 then Hours(seconds) else Minutes(seconds))
      && (|parts[0]| > 1 ==> parts[0][0] != '0')
      && forall i :: 1 <= i < |parts| ==> |parts[i]| == 2 && AllDigits(parts[i]) && DigitsValue(parts[i]) < 60
  {
    FieldsDecompose(seconds);
    SplitFields(seconds);
  }

  /** Reading the display back gives the duration. */
  lemma DurationRoundTrip(seconds: nat)
    ensures ReadDuration(FormatDuration(seconds)) == Some(seconds)
  {
    FieldsDecompose(seconds);
    SplitFields(seconds);
    var parts := DurationFields(seconds);
    NatToStringValue(Hours(seconds));
    NatToStringValue(Minutes(seconds));
    assert forall i :: 0 <= i < |parts| ==> parts[i] != "" && AllDigits(parts[i]);
  }

  /** No field contains a colon, so splitting the display recovers the fields. */
  lemma SplitFields(seconds: nat)
    ensures Split(FormatDuration(seconds), ":") == DurationFields(seconds)
  {
    var parts := DurationFields(seconds);
    forall i | 0 <= i < |parts|
      ensures ':' !in parts[i]
    {
      NoColonInDigits(parts[i]);
    }
    SplitJoin(parts, ':');
  }

  lemma NoColonInDigits(s: string)
    requires AllDigits(s)
    ensures ':' !in s
  {
    forall i | 0 <= i < |s|
      ensures s[i] != ':'
    {
      assert IsDigit(s[i]);
    }
  }
}
