/**
 * The home page's activity card: a play button that starts and stops a
 * session, a session clock that advances by one second per tick while the
 * session plays and the stream is live, and the `HH:MM:SS` display of it.
 */
module ActivityCard {
  import opened Wrappers
  import opened Text

  /** A duration split into hours, minutes and seconds; hours are not bounded. */
  datatype Clock = Clock(hours: nat, minutes: nat, seconds: nat)

  function ClockSeconds(c: Clock): nat {
    c.hours * 3600 + c.minutes * 60 + c.seconds
  }

  /** The fields `formatTime` computes from a duration in milliseconds. */
  function ClockOf(ms: nat): (c: Clock)
    ensures c.minutes < 60 && c.seconds < 60
    ensures ClockSeconds(c) == ms / 1000
  {
    var totalSeconds := ms / 1000;
    var c := Clock(totalSeconds / 3600, (totalSeconds % 3600) / 60, totalSeconds % 60);
    SplitSeconds(totalSeconds);
    c
  }

  /** Hours, minutes of the remaining hour and seconds of the remaining minute add back up. */
  lemma SplitSeconds(total: nat)
    ensures (total % 3600) / 60 < 60
    ensures (total / 3600) * 3600 + ((total % 3600) / 60) * 60 + total % 60 == total
  {
    var rest := total % 3600;
    assert total == (total / 3600) * 3600 + rest;
    assert rest == (rest / 60) * 60 + rest % 60;
    assert rest % 60 == total % 60 by {
      assert total == ((total / 3600) * 60 + rest / 60) * 60 + rest % 60;
    }
  }

  /** The clock of a number of seconds is unique: fields in range that add up to it are its fields. */
  lemma ClockUnique(c: Clock, total: nat)
    requires c.minutes < 60 && c.seconds < 60 && ClockSeconds(c) == total
    ensures c == ClockOf(total * 1000)
  {
    assert (total * 1000) / 1000 == total;
    assert c.hours == total / 3600;
    assert c.minutes * 60 + c.seconds == total % 3600;
    assert c.minutes == (total % 3600) / 60;
  }

  /** `num.toString().padStart(2, "0")`. */
  function TwoDigits(n: nat): (r: string)
    ensures |r| >= 2 && AllDigits(r)
    ensures n < 100 ==> |r| == 2
  {
    ShortSpelling(n);
    PadStart(NatToString(n), 2, '0')
  }

  /** Numbers below a hundred are spelt with at most two digits. */
  lemma ShortSpelling(n: nat)
    ensures n < 100 ==> |NatToString(n)| <= 2
  {
    if 10 <= n < 100 {
      assert NatToString(n) == NatToString(n / 10) + [DigitChar(n % 10)];
    }
  }

  /** The padded field reads back as the number: a leading zero does not change the value. */
  lemma TwoDigitsValue(n: nat)
    ensures ParseNat(TwoDigits(n)) == Some(n)
  {
    ParseNatToString(n);
    if n < 10 {
      var r := TwoDigits(n);
      assert r == ['0', DigitChar(n)];
      assert r[..1] == ['0'] && ['0'][..0] == [];
      assert DigitsValue(r) == 10 * DigitsValue(['0']) + n;
    }
  }

  /** `formatTime`: the three fields, each padded to two digits, joined by colons. */
  function FormatTime(ms: nat): (r: string)
    ensures |r| >= 8 && r[|r| - 3] == ':' && r[|r| - 6] == ':'
  {
    var c := ClockOf(ms);
    var hours, minutes, seconds := TwoDigits(c.hours), TwoDigits(c.minutes), TwoDigits(c.seconds);
    JoinedFields(hours, minutes, seconds);
    hours + ":" + minutes + ":" + seconds
  }

  /** Two-character minutes and seconds joined after the hours put the colons three and six from the end. */
  lemma JoinedFields(hours: string, minutes: string, seconds: string)
    requires |hours| >= 2 && |minutes| == 2 && |seconds| == 2
    ensures var r := hours + ":" + minutes + ":" + seconds;
            |r| >= 8 && r[|r| - 3] == ':' && r[|r| - 6] == ':'
  {
  }

  /**
   * Reading an `H:MM:SS` display: the text before the last two colons is the
   * hours, of any length, then two digits of minutes and two of seconds, each
   * below 60; the result is the number of seconds shown.
   */
  function ParseClock(s: string): (r: Option<nat>)
  {
    if |s| < 7 || s[|s| - 3] != ':' || s[|s| - 6] != ':' then None
    else
      var hours, minutes, seconds := ParseNat(s[..|s| - 6]), ParseNat(s[|s| - 5..|s| - 3]), ParseNat(s[|s| - 2..]);
      if hours.Some? && minutes.Some? && seconds.Some? && minutes.value < 60 && seconds.value < 60
      then Some(ClockSeconds(Clock(hours.value, minutes.value, seconds.value)))
      else None
  }

  /**
   * The display reads back as the whole seconds of the duration: no field is
   * truncated, and the hours are shown in full however many digits they take.
   */
  lemma FormatTimeRoundTrip(ms: nat)
    ensures ParseClock(FormatTime(ms)) == Some(ms / 1000)
  {
    var c := ClockOf(ms);
    var h, m, s := TwoDigits(c.hours), TwoDigits(c.minutes), TwoDigits(c.seconds);
    TwoDigitsValue(c.hours);
    TwoDigitsValue(c.minutes);
    TwoDigitsValue(c.seconds);
    ParseJoined(h, m, s, c);
  }

  /** A display joined from fields that read back as a clock's fields reads back as its seconds. */
  lemma ParseJoined(h: string, m: string, s: string, c: Clock)
    requires |m| == 2 && |s| == 2 && c.minutes < 60 && c.seconds < 60
    requires ParseNat(h) == Some(c.hours) && ParseNat(m) == Some(c.minutes) && ParseNat(s) == Some(c.seconds)
    ensures ParseClock(h + ":" + m + ":" + s) == Some(ClockSeconds(c))
  {
    var r := h + ":" + m + ":" + s;
    assert r[..|r| - 6] == h && r[|r| - 5..|r| - 3] == m && r[|r| - 2..] == s;
  }

  /** Below a hundred hours the display is exactly eight characters, `HH:MM:SS`. */
  lemma FormatTimeShape(ms: nat)
    requires ms < 100 * 3600 * 1000
    ensures var r := FormatTime(ms);
            |r| == 8 && r[2] == ':' && r[5] == ':'
  {
    var c := ClockOf(ms);
    assert c.hours * 3600 <= ClockSeconds(c) < 360000;
  }

  /** What the card has asked of the page, in order. */
  datatype Request = StartSession | StopSession

  class Card {
    /** The page passed an `onStart` callback. */
    const hasOnStart: bool
    /** The page passed an `onStop` callback. */
    const hasOnStop: bool
    var isPlaying: bool
    /** The session duration in milliseconds. */
    var time: nat
    /** The callbacks called so far. */
    var requests: seq<Request>

    /** The duration only ever grows in whole seconds. */
    ghost predicate Valid()
      reads this
    {
      time % 1000 == 0
    }

    constructor (hasOnStart: bool, hasOnStop: bool)
      ensures Valid()
      ensures this.hasOnStart == hasOnStart && this.hasOnStop == hasOnStop
      ensures !isPlaying && time == 0 && requests == []
    {
      this.hasOnStart := hasOnStart;
      this.hasOnStop := hasOnStop;
      isPlaying := false;
      time := 0;
      requests := [];
    }

    /**
     * `handlePlay`: starting resets the clock and calls `onStart` when given;
     * stopping calls `onStop` when given and keeps the clock; either way the
     * playing flag flips.
     */
    method HandlePlay()
      requires Valid()
      modifies this
      ensures Valid()
      ensures isPlaying == !old(isPlaying)
      ensures !old(isPlaying) ==> time == 0 && requests == old(requests) + (if hasOnStart then [StartSession] else [])
      ensures old(isPlaying) ==> time == old(time) && requests == old(requests) + (if hasOnStop then [StopSession] else [])
    {
      if !isPlaying {
        time := 0;
        if hasOnStart {
          requests := requests + [StartSession];
        }
      } else {
        if hasOnStop {
          requests := requests + [StopSession];
        }
      }
      isPlaying := !isPlaying;
    }

    /**
     * One second of the tick interval, with the stream's current liveness: the
     * interval runs only while the session plays and the stream is live.
     */
    method Tick(isLive: bool)
      requires Valid()
      modifies this`time
      ensures Valid()
      ensures time == old(time) + (if isPlaying && isLive then 1000 else 0)
      ensures ClockSeconds(ClockOf(time)) == ClockSeconds(ClockOf(old(time))) + (if isPlaying && isLive then 1 else 0)
    {
      if isPlaying && isLive {
        time := time + 1000;
      }
    }

    /** The "Session duration" text. */
    function Display(): (text: string)
      reads this
      ensures ParseClock(text) == Some(time / 1000)
    {
      FormatTimeRoundTrip(time);
      FormatTime(time)
    }
  }
}
