/**
 * The dispatch countdown: an interval (minutes between dispatches) is chosen
 * from the configured timers, `startTimer` arms the countdown, a once-a-second
 * tick counts it down, and at the last second it stops and re-arms itself to
 * the full interval. The remaining time is shown as `mm:ss`.
 */
module CountdownTimer {
  import opened Wrappers
  import opened JsText

  /** An entry of the interval menu. */
  datatype Interval = Interval(id: int, title: string, minutesInterval: int)

  /** One record of `getAllTimers().timers`. */
  datatype TimerRecord = TimerRecord(timerId: int, title: string, minutesInterval: int)

  /** `timers.map(t => ({id: t.timer_id, title: t.title, minutesInterval: t.minutes_interval}))`. */
  function ToIntervals(records: seq<TimerRecord>): (r: seq<Interval>)
    ensures |r| == |records|
    ensures forall i :: 0 <= i < |r| ==>
              r[i].id == records[i].timerId && r[i].title == records[i].title &&
              r[i].minutesInterval == records[i].minutesInterval
  {
    if records == [] then []
    else [Interval(records[0].timerId, records[0].title, records[0].minutesInterval)] + ToIntervals(records[1..])
  }

  /** The full length, in seconds, of the selected interval (0 with none). */
  function FullSeconds(selected: Option<Interval>): int {
    if selected.Some? then selected.value.minutesInterval * 60 else 0
  }

  /** The countdown's state: seconds left, whether it runs, the selected interval. */
  datatype Countdown = Countdown(timer: int, running: bool, selected: Option<Interval>)

  /** One firing of the one-second interval, which exists only while running:
      at 1 the countdown stops and re-arms; otherwise it loses one second. */
  function CountdownTick(c: Countdown): Countdown {
    if !c.running then c
    else if c.timer == 1 then Countdown(FullSeconds(c.selected), false, c.selected)
    else c.(timer := c.timer - 1)
  }

  /** `n` consecutive ticks. */
  function Ticks(c: Countdown, n: nat): Countdown {
    if n == 0 then c else CountdownTick(Ticks(c, n - 1))
  }

  /** Armed on an interval of `m >= 1` minutes, the countdown runs for exactly
      `m * 60` ticks, showing `m * 60 - n` after `n` of them, and then stands
      stopped at the full interval again. */
  lemma {:induction false} CountdownRunsFullInterval(iv: Interval, n: nat)
    requires iv.minutesInterval >= 1
    requires n <= iv.minutesInterval * 60
    ensures var full := iv.minutesInterval * 60;
            Ticks(Countdown(full, true, Some(iv)), n) ==
              if n < full then Countdown(full - n, true, Some(iv)) else Countdown(full, false, Some(iv))
  {
    if n > 0 {
      CountdownRunsFullInterval(iv, n - 1);
    }
  }

  /** Once stopped, ticks change nothing. */
  lemma {:induction false} StoppedCountdownStays(c: Countdown, n: nat)
    requires !c.running
    ensures Ticks(c, n) == c
  {
    if n > 0 {
      StoppedCountdownStays(c, n - 1);
    }
  }

  /** An interval of zero or fewer minutes arms the countdown at or below 0; it
      never passes through 1, so it never stops and keeps going negative. */
  lemma {:induction false} NonPositiveIntervalNeverStops(iv: Interval, n: nat)
    requires iv.minutesInterval <= 0
    ensures var full := iv.minutesInterval * 60;
            Ticks(Countdown(full, true, Some(iv)), n) == Countdown(full - n, true, Some(iv))
  {
    if n > 0 {
      NonPositiveIntervalNeverStops(iv, n - 1);
    }
  }

  // ---------------------------------------------------------------- mm:ss

  /** JavaScript's `a % b` for a positive divisor: what is left of `a` after taking
      away `b` times the quotient truncated toward zero, so the remainder takes the
      sign of `a`. */
  function JsRemainder(a: int, b: int): (r: int)
    requires b > 0
    ensures a - r == b * (if a >= 0 then a / b else -((-a) / b))
    ensures a >= 0 ==> 0 <= r < b
    ensures a < 0 ==> -b < r <= 0
  {
    if a >= 0 then a % b
    else
      assert -a == b * ((-a) / b) + (-a) % b;
      -((-a) % b)
  }

  /** `formatTime(seconds)`: `Math.floor(seconds / 60)` and `seconds % 60`, each
      as a numeral padded to two characters with zeros, joined by `:`. (Dafny's
      `/` by a positive divisor already rounds down.) */
  function FormatTime(seconds: int): string {
    MinutesField(seconds) + ":" + SecondsField(seconds)
  }

  function MinutesField(seconds: int): string {
    PadStart2(IntToString(seconds / 60))
  }

  function SecondsField(seconds: int): string {
    PadStart2(IntToString(JsRemainder(seconds, 60)))
  }

  /** On a non-negative count the minutes are at least two digits (more when the
      interval exceeds 99 minutes) and the seconds exactly two digits below 60. */
  lemma FormatTimeShape(seconds: nat)
    ensures var m := MinutesField(seconds);
            |m| >= 2 && AllDecimal(m) && DecimalValue(m) == seconds / 60
    ensures var s := SecondsField(seconds);
            |s| == 2 && AllDecimal(s) && DecimalValue(s) == seconds % 60 < 60
  {
    assert IntToString(seconds / 60) == NatToString(seconds / 60);
    assert IntToString(JsRemainder(seconds, 60)) == NatToString(seconds % 60);
    PaddedNumeral(seconds / 60);
    PaddedNumeral(seconds % 60);
    ShortNumeral(seconds % 60);
  }

  /** A zero-padded numeral still denotes its number. */
  lemma PaddedNumeral(n: nat)
    ensures var p := PadStart2(NatToString(n));
            |p| >= 2 && AllDecimal(p) && DecimalValue(p) == n
  {
    var s := NatToString(n);
    NatToStringValue(n);
    PaddingIsZeros(s);
    ZeroPaddingKeepsValue(PadStart2(s)[..|PadStart2(s)| - |s|], s);
  }

  /** `padStart` puts only zeros in front. */
  lemma PaddingIsZeros(s: string)
    ensures var p := PadStart2(s); var z := p[..|p| - |s|];
            p == z + s && forall i :: 0 <= i < |z| ==> z[i] == '0'
  {
    var p := PadStart2(s);
    assert p == p[..|p| - |s|] + p[|p| - |s|..];
  }

  /** Numbers below 100 have at most two digits. */
  lemma ShortNumeral(n: nat)
    requires n < 100
    ensures |NatToString(n)| <= 2
  {
    if n >= 10 {
      assert |NatToString(n / 10)| == 1;
    }
  }

  /** Reads minute and second numerals back into seconds. */
  function ReadClock(minutes: string, seconds: string): Option<int> {
    if AllDecimal(minutes) && AllDecimal(seconds)
    then Some(DecimalValue(minutes) * 60 + DecimalValue(seconds))
    else None
  }

  /** Reads a displayed `mm:ss` back into seconds. */
  function ParseClock(text: string): Option<int> {
    if |text| >= 4 && text[|text| - 3] == ':' then ReadClock(text[..|text| - 3], text[|text| - 2..])
    else None
  }

  /** The display loses nothing: a non-negative count reads back from `formatTime`. */
  lemma FormatTimeRoundTrip(seconds: nat)
    ensures ParseClock(FormatTime(seconds)) == Some(seconds)
  {
    FormatTimeShape(seconds);
    ParseClockOfJoin(MinutesField(seconds), SecondsField(seconds));
    MinutesAndSeconds(seconds);
  }

  lemma MinutesAndSeconds(seconds: nat)
    ensures (seconds / 60) * 60 + seconds % 60 == seconds
  {
  }

  /** `a:b` reads back as `a` minutes and `b` seconds when `b` is two digits. */
  lemma ParseClockOfJoin(a: string, b: string)
    requires AllDecimal(a) && |a| >= 2
    requires AllDecimal(b) && |b| == 2
    ensures ParseClock(a + ":" + b) == Some(DecimalValue(a) * 60 + DecimalValue(b))
  {
    CutAtColon(a, b);
  }

  /** The two halves of `a:b`, the second two characters long, can be cut back out of it. */
  lemma CutAtColon(a: string, b: string)
    requires |b| == 2
    ensures var r := a + ":" + b;
            |r| >= 3 && r[|r| - 3] == ':' && r[..|r| - 3] == a && r[|r| - 2..] == b
  {
    var r := a + ":" + b;
    assert r[..|r| - 3] == a;
    assert r[|r| - 2..] == b;
  }

  // ---------------------------------------------------------------- the component

  class Timer {
    /** Seconds left. */
    var timer: int
    /** Also what the exposed `isRunning()` returns to the dispatch modals. */
    var isRunning: bool
    /** The interval menu. */
    var intervals: seq<Interval>
    var selectedInterval: Option<Interval>

    constructor ()
      ensures timer == 0 && !isRunning && intervals == [] && selectedInterval == None
    {
      timer, isRunning, intervals, selectedInterval := 0, false, [], None;
    }

    ghost function State(): Countdown
      reads this
    {
      Countdown(timer, isRunning, selectedInterval)
    }

    /** `startTimer`: with an interval selected, arm the full interval and run;
        with none, do nothing. */
    method StartTimer()
      modifies this
      ensures selectedInterval.Some? ==> timer == selectedInterval.value.minutesInterval * 60 && isRunning
      ensures selectedInterval.None? ==> timer == old(timer) && isRunning == old(isRunning)
      ensures selectedInterval == old(selectedInterval) && intervals == old(intervals)
    {
      if selectedInterval.Some? {
        timer := selectedInterval.value.minutesInterval * 60;
        isRunning := true;
      }
    }

    /** `stopTimer`: stop, keeping the seconds left. */
    method StopTimer()
      modifies this
      ensures !isRunning
      ensures timer == old(timer) && selectedInterval == old(selectedInterval) && intervals == old(intervals)
    {
      isRunning := false;
    }

    /** One second passes. */
    method Tick()
      modifies this
      ensures State() == CountdownTick(old(State()))
      ensures old(isRunning) && old(timer) == 1 ==> !isRunning && timer == FullSeconds(selectedInterval)
      ensures old(isRunning) && old(timer) != 1 ==> isRunning && timer == old(timer) - 1
      ensures !old(isRunning) ==> timer == old(timer) && !isRunning
      ensures selectedInterval == old(selectedInterval) && intervals == old(intervals)
    {
      if isRunning {
        if timer == 1 {
          isRunning := false;
          timer := FullSeconds(selectedInterval);
        } else {
          timer := timer - 1;
        }
      }
    }

    /** Picking an interval from the menu. Picking a different one runs the selection
        effect, which resets the seconds left to the new interval, running or not;
        re-picking the one already selected is the same object, so React skips the
        update and the effect, and the countdown carries on. */
    method SelectInterval(iv: Interval)
      modifies this
      ensures selectedInterval == Some(iv)
      ensures old(selectedInterval) == Some(iv) ==> timer == old(timer)
      ensures old(selectedInterval) != Some(iv) ==> timer == iv.minutesInterval * 60
      ensures isRunning == old(isRunning) && intervals == old(intervals)
    {
      if selectedInterval != Some(iv) {
        selectedInterval := Some(iv);
        timer := iv.minutesInterval * 60;
      }
    }

    /** `fetchIntervals` on mount: the menu becomes the fetched timers in order
        and the first one is selected; a failed fetch (an alert) changes nothing. */
    method LoadIntervals(response: Option<seq<TimerRecord>>)
      modifies this
      ensures response.None? ==> timer == old(timer) && intervals == old(intervals) && selectedInterval == old(selectedInterval)
      ensures response.Some? ==> intervals == ToIntervals(response.value)
      ensures response.Some? && |response.value| > 0 ==>
                selectedInterval == Some(intervals[0]) && timer == intervals[0].minutesInterval * 60
      ensures response.Some? && |response.value| == 0 ==>
                timer == old(timer) && selectedInterval == old(selectedInterval)
      ensures isRunning == old(isRunning)
    {
      if response.Some? {
        var formatted := ToIntervals(response.value);
        intervals := formatted;
        if |formatted| > 0 {
          selectedInterval := Some(formatted[0]);
          timer := formatted[0].minutesInterval * 60;
        }
      }
    }
  }
}
