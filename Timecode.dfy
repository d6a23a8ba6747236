/**
  The two timecode renderings of whisper_script.py: the bracketed `[HH:MM:SS]`
  of the timecoded transcript and the SubRip `HH:MM:SS,mmm` of `format_time`.
  A segment time is a whole number of seconds plus a millisecond part below
  1000 (the truncated fraction the script computes).
*/
module Timecode {
  import opened Wrappers
  import opened Text

  type Millis = m: nat | m < 1000

  datatype Time = Time(secs: nat, millis: Millis)

  datatype Clock = Clock(hours: nat, minutes: nat, seconds: nat)

  /** `hh = t // 3600`, `mm = (t % 3600) // 60`, `ss = t % 60`: hours without
      bound, minutes and seconds below 60, together adding up to `t`. */
  function ClockOf(t: nat): (c: Clock)
    ensures c.minutes < 60 && c.seconds < 60
    ensures c.hours * 3600 + c.minutes * 60 + c.seconds == t
  {
    Clock(t / 3600, (t % 3600) / 60, t % 60)
  }

  /** `HH:MM:SS`, each field zero-padded to at least two digits. */
  function ClockText(c: Clock): string
  {
    Padded(c.hours, 2) + ":" + Padded(c.minutes, 2) + ":" + Padded(c.seconds, 2)
  }

  /** The `[HH:MM:SS]` prefix of a timecoded-transcript line, for the whole
      seconds of a segment's start. */
  function BracketTimecode(t: nat): string
  {
    "[" + ClockText(ClockOf(t)) + "]"
  }

  /** `format_time`: `HH:MM:SS,mmm`, milliseconds padded to three digits. */
  function FormatTime(t: Time): string
  {
    ClockText(ClockOf(t.secs)) + "," + Padded(t.millis, 3)
  }

  // ---------------------------------------------------------------------------
  // Readers: the inverse direction, used to state what the renderings mean
  // ---------------------------------------------------------------------------

  /** Reads `H:M:S` (digit fields, minutes and seconds below 60) as seconds. */
  function ParseClock(s: string): Option<nat>
  {
    var f := Split(s, ':');
    if |f| == 3 && AllDigits(f[0]) && AllDigits(f[1]) && AllDigits(f[2])
       && f[0] != [] && f[1] != [] && f[2] != []
       && ParseDigits(f[1]) < 60 && ParseDigits(f[2]) < 60
    then Some(ParseDigits(f[0]) * 3600 + ParseDigits(f[1]) * 60 + ParseDigits(f[2]))
    else None
  }

  /** Reads `[H:M:S]`. */
  function ParseBracket(s: string): Option<nat>
  {
    if 2 <= |s| && s[0] == '[' && s[|s| - 1] == ']' then ParseClock(s[1..|s| - 1])
    else None
  }

  /** Reads `H:M:S,mmm` with exactly three millisecond digits. */
  function ParseSrtTime(s: string): Option<Time>
  {
    var f := Split(s, ',');
    if |f| == 2 && |f[1]| == 3 && AllDigits(f[1]) && ParseDigits(f[1]) < 1000 then
      match ParseClock(f[0])
      case None => None
      case Some(secs) => Some(Time(secs, ParseDigits(f[1])))
    else None
  }

  // ---------------------------------------------------------------------------
  // Properties
  // ---------------------------------------------------------------------------

  lemma ClockTextChars(c: Clock)
    ensures forall k :: 0 <= k < |ClockText(c)| ==> IsDigit(ClockText(c)[k]) || ClockText(c)[k] == ':'
  {
  }

  /** Reading `HH:MM:SS` back gives the fields it was built from. */
  lemma {:induction false} ClockTextFields(c: Clock)
    ensures var f := Split(ClockText(c), ':');
      && |f| == 3 && AllDigits(f[0]) && AllDigits(f[1]) && AllDigits(f[2])
      && f[0] != [] && f[1] != [] && f[2] != []
      && ParseDigits(f[0]) == c.hours && ParseDigits(f[1]) == c.minutes
      && ParseDigits(f[2]) == c.seconds
  {
    var h, m, s := Padded(c.hours, 2), Padded(c.minutes, 2), Padded(c.seconds, 2);
    DigitsAvoid(h, ':');
    DigitsAvoid(m, ':');
    DigitsAvoid(s, ':');
    assert ClockText(c) == h + [':'] + (m + [':'] + s);
    SplitAround(h, ':', m + [':'] + s);
    SplitAround(m, ':', s);
    SplitNone(s, ':');
    PaddedRoundTrip(c.hours, 2);
    PaddedRoundTrip(c.minutes, 2);
    PaddedRoundTrip(c.seconds, 2);
  }

  /** Reading the `HH:MM:SS` of `t` back gives `t`. */
  lemma ClockTextRoundTrip(t: nat)
    ensures ParseClock(ClockText(ClockOf(t))) == Some(t)
  {
    var c := ClockOf(t);
    ClockTextFields(c);
    var f := Split(ClockText(c), ':');
    assert ParseDigits(f[0]) * 3600 + ParseDigits(f[1]) * 60 + ParseDigits(f[2]) == t;
  }

  /** The bracket timecode can be read back: it determines the whole
      seconds exactly. */
  lemma BracketTimecodeRoundTrip(t: nat)
    ensures ParseBracket(BracketTimecode(t)) == Some(t)
  {
    var b := BracketTimecode(t);
    assert b[1..|b| - 1] == ClockText(ClockOf(t));
    ClockTextRoundTrip(t);
  }

  /** Every field has at least two digits; below 100 hours the whole
      timecode is the fixed-width `[HH:MM:SS]`. */
  lemma BracketTimecodeShape(t: nat)
    ensures var c := ClockOf(t);
      && |Padded(c.hours, 2)| >= 2 && |Padded(c.minutes, 2)| == 2 && |Padded(c.seconds, 2)| == 2
      && (t < 100 * 3600 ==> |BracketTimecode(t)| == 10)
  {
    var c := ClockOf(t);
    PaddedExactWidth(c.minutes, 2);
    PaddedExactWidth(c.seconds, 2);
    if t < 100 * 3600 {
      PaddedExactWidth(c.hours, 2);
    }
  }

  /** `format_time` can be read back: it determines both the whole seconds
      and the milliseconds exactly. */
  lemma {:induction false} FormatTimeRoundTrip(t: Time)
    ensures ParseSrtTime(FormatTime(t)) == Some(t)
  {
    var hms := ClockText(ClockOf(t.secs));
    var ms := Padded(t.millis, 3);
    ClockTextChars(ClockOf(t.secs));
    assert ',' !in hms;
    DigitsAvoid(ms, ',');
    SplitAround(hms, ',', ms);
    SplitNone(ms, ',');
    var f := Split(FormatTime(t), ',');
    assert f == [hms, ms];
    PaddedExactWidth(t.millis, 3);
    PaddedRoundTrip(t.millis, 3);
    ClockTextRoundTrip(t.secs);
    assert ParseClock(f[0]) == Some(t.secs);
    assert |f[1]| == 3 && AllDigits(f[1]) && ParseDigits(f[1]) == t.millis;
  }

  /** The millisecond field is exactly three digits and the whole rendering
      is the fixed-width `HH:MM:SS,mmm` below 100 hours. */
  lemma FormatTimeShape(t: Time)
    ensures |Padded(t.millis, 3)| == 3
    ensures t.secs < 100 * 3600 ==> |FormatTime(t)| == 12
  {
    PaddedExactWidth(t.millis, 3);
    BracketTimecodeShape(t.secs);
  }

  /** `format_time` uses only digits, `':'` and `','`. */
  lemma FormatTimeChars(t: Time)
    ensures forall k :: 0 <= k < |FormatTime(t)| ==>
      IsDigit(FormatTime(t)[k]) || FormatTime(t)[k] == ':' || FormatTime(t)[k] == ','
  {
    ClockTextChars(ClockOf(t.secs));
  }

  /** Neither rendering contains a line break. */
  lemma NoNewline(t: Time)
    ensures '\n' !in BracketTimecode(t.secs)
    ensures '\n' !in FormatTime(t)
  {
    ClockTextChars(ClockOf(t.secs));
    FormatTimeChars(t);
  }

  /** Worked example: 0 s. */
  lemma BracketExampleZero()
    ensures BracketTimecode(0) == "[00:00:00]"
  {
    assert ClockText(ClockOf(0)) == "00:00:00" by {
      assert ClockOf(0) == Clock(0, 0, 0);
      assert Padded(0, 2) == "00" by { assert Zeros(1) == "0"; }
    }
  }

  /** Worked example: 3661.9 s, whose whole seconds are 3661. */
  lemma BracketExampleHour()
    ensures BracketTimecode(3661) == "[01:01:01]"
  {
    assert ClockText(ClockOf(3661)) == "01:01:01" by {
      assert ClockOf(3661) == Clock(1, 1, 1);
      assert Padded(1, 2) == "01" by { assert Zeros(1) == "0"; }
    }
  }

  /** Worked example: 1.234 s. */
  lemma FormatTimeExampleMillis()
    ensures FormatTime(Time(1, 234)) == "00:00:01,234"
  {
    assert ClockText(ClockOf(1)) == "00:00:01" by {
      assert ClockOf(1) == Clock(0, 0, 1);
      assert Padded(0, 2) == "00" by { assert Zeros(1) == "0"; }
      assert Padded(1, 2) == "01" by { assert Zeros(1) == "0"; }
    }
    assert Padded(234, 3) == "234" by { assert Decimal(234) == "234"; }
  }

  /** Worked example: 3600.0 s. */
  lemma FormatTimeExampleHour()
    ensures FormatTime(Time(3600, 0)) == "01:00:00,000"
  {
    assert ClockText(ClockOf(3600)) == "01:00:00" by {
      assert ClockOf(3600) == Clock(1, 0, 0);
      assert Padded(0, 2) == "00" by { assert Zeros(1) == "0"; }
      assert Padded(1, 2) == "01" by { assert Zeros(1) == "0"; }
    }
    assert Padded(0, 3) == "000" by { assert Zeros(2) == "00"; }
  }

  /** Worked example: 0 s. */
  lemma FormatTimeExampleZero()
    ensures FormatTime(Time(0, 0)) == "00:00:00,000"
  {
    assert ClockText(ClockOf(0)) == "00:00:00" by {
      assert ClockOf(0) == Clock(0, 0, 0);
      assert Padded(0, 2) == "00" by { assert Zeros(1) == "0"; }
    }
    assert Padded(0, 3) == "000" by { assert Zeros(2) == "00"; }
  }

  /** Worked example: 2.5 s. */
  lemma FormatTimeExampleHalf()
    ensures FormatTime(Time(2, 500)) == "00:00:02,500"
  {
    assert ClockText(ClockOf(2)) == "00:00:02" by {
      assert ClockOf(2) == Clock(0, 0, 2);
      assert Padded(0, 2) == "00" by { assert Zeros(1) == "0"; }
      assert Padded(2, 2) == "02" by { assert Zeros(1) == "0"; }
    }
    assert Padded(500, 3) == "500" by { assert Decimal(500) == "500"; }
  }

  /** Worked example: 5.0 s. */
  lemma FormatTimeExampleFive()
    ensures FormatTime(Time(5, 0)) == "00:00:05,000"
  {
    assert ClockText(ClockOf(5)) == "00:00:05" by {
      assert ClockOf(5) == Clock(0, 0, 5);
      assert Padded(0, 2) == "00" by { assert Zeros(1) == "0"; }
      assert Padded(5, 2) == "05" by { assert Zeros(1) == "0"; }
    }
    assert Padded(0, 3) == "000" by { assert Zeros(2) == "00"; }
  }
}
