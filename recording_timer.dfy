/** The elapsed-time display of a consultation (src/components/RecordingTimer.tsx):
    a seconds counter driven by a one-second interval while recording, reset
    when recording stops, and its `HH:MM:SS` / `MM:SS` rendering. */
module Timer {
  import opened Wrappers
  import opened Strings

  /** `s.padStart(2, "0")`: zeros in front up to length two, longer strings
      untouched. */
  function PadTwo(s: string): (p: string)
    ensures |p| == if |s| < 2 then 2 else |s|
    ensures p[|p| - |s|..] == s
    ensures forall k :: 0 <= k < |p| - |s| ==> p[k] == '0'
  {
    if |s| == 0 then "00"
    else if |s| == 1 then "0" + s
    else s
  }

  /** `n.toString().padStart(2, "0")`: the digits of `n`, at least two of
      them, still reading as `n`. */
  function TwoDigits(n: nat): (s: string)
    ensures IsDigits(s) && |s| >= 2
    ensures n < 100 ==> |s| == 2
    ensures DigitsValue(s) == n
  {
    var d := Decimal(n);
    DecimalRoundTrip(n);
    LeadingZero(d);
    PadTwo(d)
  }

  /** `Math.floor(totalSeconds / 3600)`: the whole hours elapsed. */
  function Hours(totalSeconds: nat): (h: nat)
    ensures h * 3600 <= totalSeconds < h * 3600 + 3600
  {
    totalSeconds / 3600
  }

  /** `Math.floor((totalSeconds % 3600) / 60)`: the whole minutes elapsed
      since the last full hour. */
  function Minutes(totalSeconds: nat): (m: nat)
    ensures m < 60
    ensures m * 60 <= totalSeconds - Hours(totalSeconds) * 3600 < m * 60 + 60
  {
    (totalSeconds % 3600) / 60
  }

  /** `totalSeconds % 60`: the seconds elapsed since the last full minute. */
  function Secs(totalSeconds: nat): (s: nat)
    ensures s < 60 && s <= totalSeconds && (totalSeconds - s) % 60 == 0
  {
    totalSeconds % 60
  }

  /** `formatTime`: whole hours, the minutes within the hour and the seconds
      within the minute; the hours part only once an hour has passed. */
  function FormatTime(totalSeconds: nat): (display: string)
    ensures |display| >= 5 && display[|display| - 3] == ':'
    ensures |display| == 5 <==> totalSeconds < 3600
  {
    var hours := Hours(totalSeconds);
    var minutes := Minutes(totalSeconds);
    var secs := Secs(totalSeconds);
    HoursFromAnHour(totalSeconds);
    if hours > 0 then
      ColonBeforeLastPair(TwoDigits(hours) + ":" + TwoDigits(minutes), TwoDigits(secs));
      TwoDigits(hours) + ":" + TwoDigits(minutes) + ":" + TwoDigits(secs)
    else
      ColonBeforeLastPair(TwoDigits(minutes), TwoDigits(secs));
      TwoDigits(minutes) + ":" + TwoDigits(secs)
  }

  lemma ColonBeforeLastPair(front: string, last: string)
    requires |last| == 2
    ensures |front + ":" + last| == |front| + 3 && (front + ":" + last)[|front|] == ':'
  {
  }

  lemma HoursFromAnHour(totalSeconds: nat)
    ensures Hours(totalSeconds) > 0 <==> totalSeconds >= 3600
  {
  }

  lemma RemainderOfMinutes(n: nat, a: nat, b: nat)
    requires n == a * 60 + b && b < 60
    ensures n % 60 == b && n / 60 == a
  {
  }

  /** Minutes and seconds are each below 60, there are hours exactly from
      3600 seconds on, and the three add back up to the total. */
  lemma Decompose(totalSeconds: nat)
    ensures Minutes(totalSeconds) < 60 && Secs(totalSeconds) < 60
    ensures Hours(totalSeconds) > 0 <==> totalSeconds >= 3600
    ensures Hours(totalSeconds) * 3600 + Minutes(totalSeconds) * 60 + Secs(totalSeconds) == totalSeconds
  {
    var r := totalSeconds % 3600;
    var m, s := r / 60, r % 60;
    assert r == m * 60 + s;
    RemainderOfMinutes(totalSeconds, (totalSeconds / 3600) * 60 + m, s);
  }

  /** Padding adds one leading zero to a single digit and leaves two or more
      digits as they are. */
  lemma TwoDigitsPadding(n: nat)
    ensures n < 10 ==> TwoDigits(n) == "0" + Decimal(n)
    ensures n >= 10 ==> TwoDigits(n) == Decimal(n)
  {
  }

  /** Under an hour the display is `MM:SS`; from one hour up to a hundred it
      is `HH:MM:SS`, every group two digits wide. */
  lemma FormatTimeShape(totalSeconds: nat)
    ensures totalSeconds < 3600 ==> |FormatTime(totalSeconds)| == 5 && FormatTime(totalSeconds)[2] == ':'
    ensures 3600 <= totalSeconds < 360000 ==>
      |FormatTime(totalSeconds)| == 8 && FormatTime(totalSeconds)[2] == ':' && FormatTime(totalSeconds)[5] == ':'
  {
    Decompose(totalSeconds);
    var m, s := TwoDigits(Minutes(totalSeconds)), TwoDigits(Secs(totalSeconds));
    assert |m| == 2 && |s| == 2;
    if totalSeconds >= 3600 {
      var h := TwoDigits(Hours(totalSeconds));
      assert FormatTime(totalSeconds) == h + ":" + m + ":" + s;
      if totalSeconds < 360000 {
        assert Hours(totalSeconds) < 100;
        assert |h| == 2;
      }
    } else {
      assert FormatTime(totalSeconds) == m + ":" + s;
    }
  }

  /** The time that colon-separated groups of digits stand for: minutes and
      seconds, or hours, minutes and seconds. */
  function ClockValue(groups: seq<string>): Option<nat>
  {
    if |groups| == 2 && IsDigits(groups[0]) && IsDigits(groups[1]) then
      Some(DigitsValue(groups[0]) * 60 + DigitsValue(groups[1]))
    else if |groups| == 3 && IsDigits(groups[0]) && IsDigits(groups[1]) && IsDigits(groups[2]) then
      Some(DigitsValue(groups[0]) * 3600 + DigitsValue(groups[1]) * 60 + DigitsValue(groups[2]))
    else None
  }

  /** Reads a clock display back. */
  function ParseClock(s: string): Option<nat>
  {
    ClockValue(Split(s, ':'))
  }

  lemma DigitsHaveNoColon(s: string)
    requires IsDigits(s)
    ensures ':' !in s
  {
  }

  lemma SplitThreeGroups(h: string, m: string, s: string)
    requires IsDigits(h) && IsDigits(m) && IsDigits(s)
    ensures Split(h + ":" + m + ":" + s, ':') == [h, m, s]
  {
    DigitsHaveNoColon(h);
    DigitsHaveNoColon(m);
    DigitsHaveNoColon(s);
    assert h + ":" + m + ":" + s == h + [':'] + (m + [':'] + s);
    SplitAfterFirst(h, ':', m + [':'] + s);
    SplitAfterFirst(m, ':', s);
    assert Split(s, ':') == [s];
  }

  lemma SplitTwoGroups(m: string, s: string)
    requires IsDigits(m) && IsDigits(s)
    ensures Split(m + ":" + s, ':') == [m, s]
  {
    DigitsHaveNoColon(m);
    DigitsHaveNoColon(s);
    SplitAfterFirst(m, ':', s);
    assert Split(s, ':') == [s];
  }

  lemma ReadThreeGroups(h: string, m: string, s: string, hv: nat, mv: nat, sv: nat)
    requires IsDigits(h) && IsDigits(m) && IsDigits(s)
    requires DigitsValue(h) == hv && DigitsValue(m) == mv && DigitsValue(s) == sv
    ensures ClockValue([h, m, s]) == Some(hv * 3600 + mv * 60 + sv)
  {
    var groups := [h, m, s];
    assert |groups| == 3 && groups[0] == h && groups[1] == m && groups[2] == s;
  }

  lemma ReadTwoGroups(m: string, s: string, mv: nat, sv: nat)
    requires IsDigits(m) && IsDigits(s)
    requires DigitsValue(m) == mv && DigitsValue(s) == sv
    ensures ClockValue([m, s]) == Some(mv * 60 + sv)
  {
    var groups := [m, s];
    assert |groups| == 2 && groups[0] == m && groups[1] == s;
  }

  /** Padded hours, minutes and seconds read back as their total. */
  lemma ThreeGroupsValue(hours: nat, minutes: nat, secs: nat)
    ensures ClockValue([TwoDigits(hours), TwoDigits(minutes), TwoDigits(secs)]) == Some(hours * 3600 + minutes * 60 + secs)
  {
    ReadThreeGroups(TwoDigits(hours), TwoDigits(minutes), TwoDigits(secs), hours, minutes, secs);
  }

  /** Padded minutes and seconds read back as their total. */
  lemma TwoGroupsValue(minutes: nat, secs: nat)
    ensures ClockValue([TwoDigits(minutes), TwoDigits(secs)]) == Some(minutes * 60 + secs)
  {
    ReadTwoGroups(TwoDigits(minutes), TwoDigits(secs), minutes, secs);
  }

  lemma HoursTotal(n: nat)
    ensures Some(Hours(n) * 3600 + Minutes(n) * 60 + Secs(n)) == Some(n)
  {
    Decompose(n);
  }

  lemma MinutesTotal(n: nat)
    requires n < 3600
    ensures Some(Minutes(n) * 60 + Secs(n)) == Some(n)
  {
    Decompose(n);
  }

  /** The groups the display is made of. */
  lemma FormatTimeSplits(n: nat)
    ensures n >= 3600 ==> Split(FormatTime(n), ':') == [TwoDigits(Hours(n)), TwoDigits(Minutes(n)), TwoDigits(Secs(n))]
    ensures n < 3600 ==> Split(FormatTime(n), ':') == [TwoDigits(Minutes(n)), TwoDigits(Secs(n))]
  {
    Decompose(n);
    if n >= 3600 {
      SplitThreeGroups(TwoDigits(Hours(n)), TwoDigits(Minutes(n)), TwoDigits(Secs(n)));
    } else {
      SplitTwoGroups(TwoDigits(Minutes(n)), TwoDigits(Secs(n)));
    }
  }

  /** What those groups read back as, from one hour on. */
  lemma LongDisplayValue(n: nat)
    ensures ClockValue([TwoDigits(Hours(n)), TwoDigits(Minutes(n)), TwoDigits(Secs(n))]) == Some(n)
  {
    ThreeGroupsValue(Hours(n), Minutes(n), Secs(n));
    HoursTotal(n);
  }

  /** What those groups read back as, under an hour. */
  lemma ShortDisplayValue(n: nat)
    requires n < 3600
    ensures ClockValue([TwoDigits(Minutes(n)), TwoDigits(Secs(n))]) == Some(n)
  {
    TwoGroupsValue(Minutes(n), Secs(n));
    MinutesTotal(n);
  }

  /** The display loses nothing: every elapsed time reads back from it, so
      two different times never look the same. */
  lemma FormatTimeRoundTrip(totalSeconds: nat)
    ensures ParseClock(FormatTime(totalSeconds)) == Some(totalSeconds)
  {
    FormatTimeSplits(totalSeconds);
    if totalSeconds >= 3600 {
      LongDisplayValue(totalSeconds);
    } else {
      ShortDisplayValue(totalSeconds);
    }
  }

  lemma SingleDigit(n: nat)
    requires n < 10
    ensures TwoDigits(n) == ['0', DigitChar(n)]
  {
  }

  /** A minute and five seconds shows as `01:05`. */
  lemma UnderAnHourExample()
    ensures FormatTime(65) == "01:05"
  {
    assert Hours(65) == 0 && Minutes(65) == 1 && Secs(65) == 5;
    SingleDigit(1);
    SingleDigit(5);
    assert DigitChar(1) == '1' && DigitChar(5) == '5';
  }

  /** An hour, two minutes and five seconds shows as `01:02:05`. */
  lemma OverAnHourExample()
    ensures FormatTime(3725) == "01:02:05"
  {
    assert Hours(3725) == 1 && Minutes(3725) == 2 && Secs(3725) == 5;
    SingleDigit(1);
    SingleDigit(2);
    SingleDigit(5);
    assert DigitChar(1) == '1' && DigitChar(2) == '2' && DigitChar(5) == '5';
  }

  /** The timer component's state. */
  class RecordingTimer {
    var seconds: nat
    var running: bool

    /** A stopped timer shows zero. */
    predicate Valid()
      reads this
    {
      !running ==> seconds == 0
    }

    constructor()
      ensures Valid() && seconds == 0 && !running
    {
      seconds := 0;
      running := false;
    }

    /** The effect that runs whenever `isRunning` changes: a running timer
        (re)arms its interval and keeps its count, a stopped one goes back
        to zero. */
    method SetRunning(isRunning: bool)
      requires Valid()
      modifies this
      ensures Valid()
      ensures running == isRunning
      ensures seconds == if isRunning then old(seconds) else 0
    {
      running := isRunning;
      if !isRunning {
        seconds := 0;
      }
    }

    /** One interval callback: the count goes up by one and the new value is
        reported through `onTimeUpdate`. */
    method Tick() returns (reported: nat)
      requires Valid() && running
      modifies this
      ensures Valid() && running
      ensures seconds == old(seconds) + 1 && reported == seconds
    {
      seconds := seconds + 1;
      reported := seconds;
    }

    /** What the component renders. */
    function Display(): (s: string)
      reads this
      ensures ParseClock(s) == Some(seconds)
    {
      FormatTimeRoundTrip(seconds);
      FormatTime(seconds)
    }
  }
}
