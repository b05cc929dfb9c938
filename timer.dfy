/**
 * The recording timer: elapsed whole seconds since the recording started,
 * rendered as `MM:SS` inside one of four status lines.
 */
module Timer {
  import opened JsString
  import opened Wrappers

  /** `Math.floor((currentTime - startTime) / 1000)`; Dafny's `/` by a positive divisor is floor division. */
  function ElapsedSeconds(startTime: int, now: int): (r: int)
    ensures 1000 * r <= now - startTime < 1000 * (r + 1)
    ensures now >= startTime ==> r >= 0
  {
    (now - startTime) / 1000
  }

  lemma ElapsedMonotone(startTime: int, now1: int, now2: int)
    requires now1 <= now2
    ensures ElapsedSeconds(startTime, now1) <= ElapsedSeconds(startTime, now2)
  {
    var r1, r2 := ElapsedSeconds(startTime, now1), ElapsedSeconds(startTime, now2);
    assert 1000 * r1 < 1000 * (r2 + 1);
  }

  /**
   * `formatTime`: the floor of seconds/60, a colon and the JavaScript remainder
   * seconds % 60, each converted with `toString` and padded on the left with "0"
   * to at least two characters.
   */
  function FormatTime(seconds: int): string {
    var minutes := seconds / 60;
    var remainingSeconds := JsRemainder(seconds, 60);
    Clock(minutes, remainingSeconds)
  }

  /** The template `${minutes}:${seconds}` with both numbers padded to two characters. */
  function Clock(minutes: int, seconds: int): string {
    PadStart(NumberToString(minutes), 2, '0') + ":" + PadStart(NumberToString(seconds), 2, '0')
  }

  /** Reads a `M…M:SS` clock back into seconds; `None` for anything else. */
  function ParseClock(t: string): Option<int> {
    if |t| >= 5 && t[|t| - 3] == ':' then ParseFields(t[..|t| - 3], t[|t| - 2..]) else None
  }

  /** Minutes and seconds fields: digits only, and fewer than 60 seconds. */
  function ParseFields(minutes: string, seconds: string): Option<int> {
    if AllDigits(minutes) && AllDigits(seconds) && DecimalValue(seconds) < 60
    then Some(60 * DecimalValue(minutes) + DecimalValue(seconds))
    else None
  }

  /** A number below 100, padded to two characters, is two digits denoting that number. */
  lemma PaddedDigits(n: nat)
    requires n < 100
    ensures var p := PadStart(Digits(n), 2, '0');
      |p| == 2 && AllDigits(p) && DecimalValue(p) == n
  {
    var p := PadStart(Digits(n), 2, '0');
    if n < 10 {
      assert p == ['0', DigitChar(n)];
      assert p[..1] == ['0'] && ['0'][..0] == [];
    } else {
      DecimalValueOfDigits(n);
      assert p == Digits(n);
    }
  }

  /** A minutes field is all digits, at least two of them, and denotes the minutes in full. */
  lemma PaddedMinutes(m: nat)
    ensures var p := PadStart(Digits(m), 2, '0');
      |p| >= 2 && |p| >= |Digits(m)| && AllDigits(p) && DecimalValue(p) == m
  {
    var p := PadStart(Digits(m), 2, '0');
    DecimalValueOfDigits(m);
    if m < 10 {
      PaddedDigits(m);
    } else {
      assert p == Digits(m);
    }
  }

  /**
   * For a non-negative number of seconds the clock is the whole minutes, padded
   * to at least two digits and never cut, a colon, and exactly two digits of
   * seconds in 00..59.
   */
  lemma FormatTimeFields(s: int)
    requires s >= 0
    ensures var mf, sf := PadStart(Digits(s / 60), 2, '0'), PadStart(Digits(s % 60), 2, '0');
      FormatTime(s) == mf + ":" + sf
      && |mf| >= 2 && |mf| >= |Digits(s / 60)| && AllDigits(mf) && DecimalValue(mf) == s / 60
      && |sf| == 2 && AllDigits(sf) && DecimalValue(sf) == s % 60 < 60
  {
    FormatTimeIsClock(s);
    PaddedMinutes(s / 60);
    PaddedDigits(s % 60);
  }

  /** For s >= 0 the JavaScript remainder is the mathematical one. */
  lemma FormatTimeIsClock(s: int)
    requires s >= 0
    ensures FormatTime(s) == Clock(s / 60, s % 60)
  {
    assert JsRemainder(s, 60) == s % 60;
  }

  /** A clock joined from a minutes field and a seconds field is read back field by field. */
  lemma SplitClock(minutes: string, seconds: string)
    requires |minutes| >= 2 && |seconds| == 2
    ensures ParseClock(minutes + ":" + seconds) == ParseFields(minutes, seconds)
  {
    var t := minutes + ":" + seconds;
    assert t[..|t| - 3] == minutes;
    assert t[|t| - 2..] == seconds;
  }

  /** Fields of the right shape and value read back as 60 * minutes + seconds. */
  lemma ReadBack(minutes: string, seconds: string, m: nat, sec: nat, total: int)
    requires |minutes| >= 2 && AllDigits(minutes) && DecimalValue(minutes) == m
    requires |seconds| == 2 && AllDigits(seconds) && DecimalValue(seconds) == sec < 60
    requires total == 60 * m + sec
    ensures ParseClock(minutes + ":" + seconds) == Some(total)
  {
    SplitClock(minutes, seconds);
  }

  /** The clock of m minutes and sec < 60 seconds reads back as 60 * m + sec. */
  lemma ClockReadBack(m: nat, sec: nat, total: int)
    requires sec < 60 && total == 60 * m + sec
    ensures ParseClock(Clock(m, sec)) == Some(total)
  {
    PaddedMinutes(m);
    PaddedDigits(sec);
    ReadBack(PadStart(Digits(m), 2, '0'), PadStart(Digits(sec), 2, '0'), m, sec, total);
  }

  /** Round trip: reading the clock back gives 60 * minutes + seconds = s. */
  lemma ClockRoundTrip(s: int)
    requires s >= 0
    ensures ParseClock(FormatTime(s)) == Some(s)
  {
    FormatTimeIsClock(s);
    ClockReadBack(s / 60, s % 60, s);
  }

  /** Different non-negative durations never show the same clock. */
  lemma FormatTimeInjective(s1: int, s2: int)
    requires s1 >= 0 && s2 >= 0 && FormatTime(s1) == FormatTime(s2)
    ensures s1 == s2
  {
    ClockRoundTrip(s1);
    ClockRoundTrip(s2);
  }

  /** 6000 seconds is "100:00": the minutes field grows past two digits. */
  lemma HundredMinutes()
    ensures FormatTime(6000) == "100:00"
  {
    assert 6000 / 60 == 100 && JsRemainder(6000, 60) == 0;
    assert Digits(1) == "1" && Digits(0) == "0";
    assert Digits(10) == Digits(1) + "0" == "10";
    assert Digits(100) == Digits(10) + "0" == "100";
    assert NumberToString(100) == "100" && NumberToString(0) == "0";
    assert PadStart("100", 2, '0') == "100";
    assert PadStart("0", 2, '0') == "00";
  }

  /** The four lines the timer can show. */
  datatype TimerStatus = PausedAt | RunningAt | StoppedAt | NotRecording

  /** `timerDisplay`: the first matching case, in the source's priority order. */
  function TimerDisplay(isRecording: bool, isPaused: bool, elapsedTime: int): string {
    StatusLine(isRecording, isPaused, elapsedTime, FormatTime(elapsedTime))
  }

  /** The status line around an already formatted clock. */
  function StatusLine(isRecording: bool, isPaused: bool, elapsedTime: int, clock: string): string {
    if isRecording && isPaused then "Recording paused at " + clock
    else if isRecording then "Recording Time: " + clock
    else if elapsedTime > 0 then "Recording stopped at " + clock
    else "Not recording"
  }

  /** Which of the four lines a display string is, judged by its fixed opening words. */
  function ReadStatus(display: string): TimerStatus {
    if "Recording paused at " <= display then PausedAt
    else if "Recording Time: " <= display then RunningAt
    else if "Recording stopped at " <= display then StoppedAt
    else NotRecording
  }

  /** The fixed words a status line opens with; the last line is nothing but its words. */
  function Opening(st: TimerStatus): string {
    match st
    case PausedAt => "Recording paused at "
    case RunningAt => "Recording Time: "
    case StoppedAt => "Recording stopped at "
    case NotRecording => "Not recording"
  }

  /**
   * Exactly one status line is shown, and which one is decided by the flags
   * alone: paused, running, stopped with time on the clock, or not recording.
   * Each of the first three is its opening words followed by the formatted
   * elapsed time; the last is "Not recording" and nothing else.
   */
  lemma DisplayCases(isRecording: bool, isPaused: bool, elapsedTime: int)
    ensures var d := TimerDisplay(isRecording, isPaused, elapsedTime);
      var st := ReadStatus(d);
      (st == PausedAt <==> isRecording && isPaused)
      && (st == RunningAt <==> isRecording && !isPaused)
      && (st == StoppedAt <==> !isRecording && elapsedTime > 0)
      && (st == NotRecording <==> !isRecording && elapsedTime <= 0)
      && (st != NotRecording ==> d == Opening(st) + FormatTime(elapsedTime))
      && (st == NotRecording ==> d == "Not recording")
  {
    LineCases(isRecording, isPaused, elapsedTime, FormatTime(elapsedTime));
  }

  lemma LineCases(isRecording: bool, isPaused: bool, elapsedTime: int, clock: string)
    ensures var d := StatusLine(isRecording, isPaused, elapsedTime, clock);
      var st := ReadStatus(d);
      (st == PausedAt <==> isRecording && isPaused)
      && (st == RunningAt <==> isRecording && !isPaused)
      && (st == StoppedAt <==> !isRecording && elapsedTime > 0)
      && (st == NotRecording <==> !isRecording && elapsedTime <= 0)
      && (st != NotRecording ==> d == Opening(st) + clock)
      && (st == NotRecording ==> d == "Not recording")
  {
    var d := StatusLine(isRecording, isPaused, elapsedTime, clock);
    if isRecording && isPaused {
      Prefixed("Recording paused at ", clock);
    } else if isRecording {
      Prefixed("Recording Time: ", clock);
      assert d[10] != "Recording paused at "[10];
    } else if elapsedTime > 0 {
      Prefixed("Recording stopped at ", clock);
      assert d[10] != "Recording paused at "[10] && d[10] != "Recording Time: "[10];
    }
  }

  lemma Prefixed(words: string, t: string)
    ensures var d := words + t; words <= d && d[|d| - |t|..] == t && d[..|words|] == words
  {
    var d := words + t;
    assert d[..|words|] == words;
  }

  /** The `Timer` component's `elapsedTime` state, overwritten by the one-second interval. */
  class TimerView {
    var elapsedTime: int

    constructor ()
      ensures elapsedTime == 0
    {
      elapsedTime := 0;
    }

    /**
     * One interval tick. The interval exists only while recording and not
     * paused, so in every other state the clock stays frozen.
     */
    method Tick(isRecording: bool, isPaused: bool, startTime: int, now: int)
      modifies this
      ensures isRecording && !isPaused ==> elapsedTime == ElapsedSeconds(startTime, now)
      ensures !(isRecording && !isPaused) ==> elapsedTime == old(elapsedTime)
    {
      if isRecording && !isPaused {
        elapsedTime := ElapsedSeconds(startTime, now);
      }
    }
  }
}
