/**
  The player's clock labels: a position in seconds rendered as whole
  minutes, a colon and the whole seconds within the minute padded to two
  digits (`65` becomes `1:05`). Fractions of a second are dropped, never
  rounded, and there is no hour field.
 */
module TimeFormat {

  import opened Wrappers
  import opened Decimal

  /** A non-negative time in seconds (JavaScript numbers, without NaN or infinities). */
  type Seconds = r: real | r >= 0.0

  /**
    JavaScript's `time % 60` for a non-negative `time`: the quotient is
    truncated, which for a non-negative dividend is the floor.
   */
  function MinuteRemainder(time: Seconds): (r: real)
    ensures 0.0 <= r < 60.0
    ensures (r + 60.0 * (time / 60.0).Floor as real) == time
  {
    time - 60.0 * (time / 60.0).Floor as real
  }

  /**
    Whole minutes, a colon, then the whole seconds of the minute padded to
    two digits. The label depends only on `floor(time)`: its minutes field
    is the numeral of `floor(time) / 60`, its seconds field the two digits
    of `floor(time) mod 60`, and reading it back gives `floor(time)`.
   */
  function FormatTime(time: Seconds): (r: string)
    ensures r == NatToDecimal(time.Floor / 60) + ":" + SecondsField(time.Floor % 60)
    ensures ParseClock(r) == Some(time.Floor)
  {
    var minutes := (time / 60.0).Floor;
    var seconds := MinuteRemainder(time).Floor;
    FloorDecomposition(time);
    ClockRoundTrip(time.Floor);
    NatToDecimal(minutes) + ":" + PadStart(NatToDecimal(seconds), 2, '0')
  }

  /** The two floors the formatter takes are the integer quotient and remainder of `floor(time)`. */
  lemma FloorDecomposition(time: Seconds)
    ensures (time / 60.0).Floor == time.Floor / 60
    ensures MinuteRemainder(time).Floor == time.Floor % 60
  {
  }

  /** The seconds field: two digits, zero-padded, denoting `n`. */
  function SecondsField(n: nat): (r: string)
    requires n < 60
    ensures |r| == 2 && AllDigits(r) && DecimalValue(r) == n
    ensures r[0] == '0' <==> n < 10
  {
    TwoDigitRendering(n);
    PadStart(NatToDecimal(n), 2, '0')
  }

  /** The label of `minutes` whole minutes and `seconds` more. */
  function Label(minutes: nat, seconds: nat): string
    requires seconds < 60
  {
    NatToDecimal(minutes) + ":" + SecondsField(seconds)
  }

  /** The label of a whole number of seconds, in integer arithmetic. */
  function Clock(total: nat): string {
    Label(total / 60, total % 60)
  }

  /**
    Reads a label back into whole seconds: a minutes numeral, a colon and a
    two-digit seconds field below 60.
   */
  function ParseClock(s: string): (r: Option<nat>)
    ensures r.Some? ==> |s| >= 4 && s[|s| - 3] == ':'
  {
    if |s| < 4 || s[|s| - 3] != ':' then None
    else
      var minutes := s[..|s| - 3];
      var seconds := s[|s| - 2..];
      if AllDigits(minutes) && AllDigits(seconds) && DecimalValue(seconds) < 60
      then Some(60 * DecimalValue(minutes) + DecimalValue(seconds))
      else None
  }

  /** Where the two fields of a label sit. */
  lemma LabelLayout(minutes: string, seconds: string)
    requires |seconds| == 2
    ensures var s := minutes + ":" + seconds;
      && |s| == |minutes| + 3 && s[|s| - 3] == ':'
      && s[..|s| - 3] == minutes && s[|s| - 2..] == seconds
  {
  }

  /** Reading a label assembled from a numeral and a two-digit field. */
  lemma ParseLabel(minutes: string, seconds: string, m: nat, sec: nat)
    requires Canonical(minutes) && DecimalValue(minutes) == m
    requires |seconds| == 2 && AllDigits(seconds) && DecimalValue(seconds) == sec && sec < 60
    ensures ParseClock(minutes + ":" + seconds) == Some(60 * m + sec)
  {
    LabelLayout(minutes, seconds);
  }

  /** Reading a label back gives the minutes and seconds it was made from. */
  lemma LabelRoundTrip(minutes: nat, seconds: nat)
    requires seconds < 60
    ensures ParseClock(Label(minutes, seconds)) == Some(60 * minutes + seconds)
  {
    var a, b := NatToDecimal(minutes), SecondsField(seconds);
    NatToDecimalRoundTrip(minutes);
    ParseLabel(a, b, minutes, seconds);
    assert Label(minutes, seconds) == a + ":" + b;
  }

  /** Reading a label back gives the whole seconds it was made from. */
  lemma ClockRoundTrip(total: nat)
    ensures ParseClock(Clock(total)) == Some(total)
  {
    LabelRoundTrip(total / 60, total % 60);
  }

  /** Two times get the same label exactly when they agree in whole seconds. */
  lemma FormatTimeSameLabel(a: Seconds, b: Seconds)
    ensures FormatTime(a) == FormatTime(b) <==> a.Floor == b.Floor
  {
  }

  /** The formatter floors: a time and its whole part get the same label. */
  lemma FormatTimeFloors(time: Seconds)
    ensures FormatTime(time) == FormatTime(time.Floor as real)
  {
  }

  /** Sample label: the start of the track. */
  lemma ZeroLabel()
    ensures FormatTime(0.0) == "0:00"
  {
    ClockSample(0, "0", "0", "0:00");
    LabelOfWholeSeconds(0.0, 0, "0:00");
  }

  /** Sample label: a one-digit seconds field is padded. */
  lemma PaddedLabel()
    ensures FormatTime(65.0) == "1:05"
  {
    ClockSample(65, "1", "5", "1:05");
    LabelOfWholeSeconds(65.0, 65, "1:05");
  }

  /**
    Sample label: every time in the last second of the first minute, 59.9
    among them, shows `0:59`; the fraction is dropped, not rounded up.
   */
  lemma FractionIsDropped(time: Seconds)
    requires 59.0 <= time < 60.0
    ensures FormatTime(time) == "0:59"
  {
    assert time.Floor == 59;
    assert NatToDecimal(59) == NatToDecimal(5) + "9";
    ClockSample(59, "0", "59", "0:59");
    LabelOfWholeSeconds(time, 59, "0:59");
  }

  /** Sample label: the minutes field is not padded or limited to two digits. */
  lemma MinutesLabel()
    ensures FormatTime(600.0) == "10:00"
  {
    assert NatToDecimal(10) == NatToDecimal(1) + "0";
    ClockSample(600, "10", "0", "10:00");
    LabelOfWholeSeconds(600.0, 600, "10:00");
  }

  lemma ClockSample(total: nat, mins: string, secs: string, text: string)
    requires NatToDecimal(total / 60) == mins && NatToDecimal(total % 60) == secs
    requires text == mins + ":" + PadStart(secs, 2, '0')
    ensures Clock(total) == text
  {
  }

  lemma LabelOfWholeSeconds(time: Seconds, total: nat, text: string)
    requires time.Floor == total && Clock(total) == text
    ensures FormatTime(time) == text
  {
  }
}
