/**
 One side's countdown clock: the `m:ss` display and the rule by which the
 clock counts down one second at a time while it is active and reports a
 timeout once it has reached zero.
 */
module Timer {
  import opened Decimal
  import opened ChessTypes

  /** JavaScript's `%` for a positive divisor: the remainder takes the dividend's sign. */
  function JsRemainder(a: int, b: int): (r: int)
    requires b > 0
    ensures a >= 0 ==> r == a % b
    ensures -b < r < b
    ensures a == (if a >= 0 then a / b else -((-a) / b)) * b + r
  {
    if a >= 0 then a % b else -((-a) % b)
  }

  /**
   The clock text for `seconds`: whole minutes (`Math.floor(seconds / 60)`),
   a colon, a '0' when the second count is below ten, then the second count.
   */
  function FormatTime(seconds: int): (r: string)
    ensures seconds >= 0 ==>
      && |r| >= 4
      && r[..|r| - 3] == NatToString(seconds / 60)
      && r[|r| - 3] == ':'
      && AllDigits(r[|r| - 2..])
      && DigitsValue(r[|r| - 2..]) == seconds % 60
      && (r[|r| - 2] == '0' <==> seconds % 60 < 10)
  {
    var mins := seconds / 60;
    var secs := JsRemainder(seconds, 60);
    var r := IntToString(mins) + ":" + (if secs < 10 then "0" else "") + IntToString(secs);
    if seconds >= 0 then
      SecondsField(secs);
      assert r[..|r| - 3] == NatToString(mins);
      assert r[|r| - 2..] == (if secs < 10 then "0" else "") + NatToString(secs);
      r
    else r
  }

  /** The two-character seconds field for a second count in 0..59. */
  lemma SecondsField(secs: int)
    requires 0 <= secs < 60
    ensures var f := (if secs < 10 then "0" else "") + NatToString(secs);
      && |f| == 2
      && AllDigits(f)
      && DigitsValue(f) == secs
      && (f[0] == '0' <==> secs < 10)
  {
    var f := (if secs < 10 then "0" else "") + NatToString(secs);
    NatToStringRoundTrip(secs);
    if secs < 10 {
      assert f[..1] == "0";
    } else {
      assert f == NatToString(secs);
    }
  }

  /** Reads a clock text `m:ss` back into seconds; `None` if it is not of that shape. */
  function ParseClock(t: string): Option<int> {
    if |t| >= 4 && t[|t| - 3] == ':' && AllDigits(t[..|t| - 3]) && AllDigits(t[|t| - 2..]) then
      Some(DigitsValue(t[..|t| - 3]) * 60 + DigitsValue(t[|t| - 2..]))
    else None
  }

  /** The display loses nothing: a non-negative second count can be read back from it. */
  lemma FormatTimeRoundTrip(seconds: nat)
    ensures ParseClock(FormatTime(seconds)) == Some(seconds)
  {
    NatToStringRoundTrip(seconds / 60);
  }

  /** A fresh clock shows ten minutes; 65 seconds show as one minute and five. */
  lemma FormatTimeExamples()
    ensures FormatTime(600) == "10:00"
    ensures FormatTime(65) == "1:05"
  {
  }

  /** What one run of the countdown effect does. */
  datatype ClockEffect = Countdown | TimeOut | Idle

  /**
   The countdown effect: while active with time left it schedules the
   one-second decrement; otherwise, once no time is left, it calls the
   timeout callback (whether or not the clock is active).
   */
  function ClockStep(isActive: bool, timeLeft: int): (e: ClockEffect)
    ensures e == Countdown <==> isActive && timeLeft > 0
    ensures e == TimeOut <==> timeLeft <= 0
  {
    if isActive && timeLeft > 0 then Countdown
    else if timeLeft <= 0 then TimeOut
    else Idle
  }

  /** The time left after one run of the effect (and the decrement it schedules). */
  function NextTimeLeft(isActive: bool, timeLeft: int): (t: int)
    ensures ClockStep(isActive, timeLeft) == Countdown ==> t == timeLeft - 1
    ensures ClockStep(isActive, timeLeft) != Countdown ==> t == timeLeft
  {
    if ClockStep(isActive, timeLeft) == Countdown then timeLeft - 1 else timeLeft
  }

  /** The state reached after `steps` runs: time left, and whether a timeout fired on the way. */
  datatype ClockRun = ClockRun(timeLeft: int, timedOut: bool)

  function Run(isActive: bool, timeLeft: int, steps: nat): ClockRun
    decreases steps
  {
    if steps == 0 then ClockRun(timeLeft, false)
    else
      var rest := Run(isActive, NextTimeLeft(isActive, timeLeft), steps - 1);
      ClockRun(rest.timeLeft, ClockStep(isActive, timeLeft) == TimeOut || rest.timedOut)
  }

  /**
   An active clock started at `t` seconds counts down to zero and stays
   there, and it times out within `steps` runs exactly when `steps` exceeds `t`.
   */
  lemma {:induction false} ActiveClockTimesOutAtZero(t: nat, steps: nat)
    ensures Run(true, t, steps).timeLeft == if steps <= t then t - steps else 0
    ensures Run(true, t, steps).timedOut <==> steps > t
    decreases steps
  {
    if steps > 0 {
      ActiveClockTimesOutAtZero(if t > 0 then t - 1 else 0, steps - 1);
    }
  }

  /** An inactive clock with time left never moves and never times out. */
  lemma {:induction false} InactiveClockStands(t: int, steps: nat)
    requires t > 0
    ensures Run(false, t, steps) == ClockRun(t, false)
    decreases steps
  {
    if steps > 0 {
      InactiveClockStands(t, steps - 1);
    }
  }

  /** The state of one `Timer` component. */
  class Clock {
    var initialTime: int
    var timeLeft: int

    constructor (initialTime: int)
      ensures this.initialTime == initialTime && timeLeft == initialTime
    {
      this.initialTime := initialTime;
      timeLeft := initialTime;
    }

    /**
     A render with the given `initialTime` prop: the first effect resets the
     clock only when the prop differs from the one it last saw.
     */
    method SyncInitialTime(t: int)
      modifies this
      ensures initialTime == t
      ensures timeLeft == SyncedTimeLeft(old(initialTime), old(timeLeft), t)
    {
      if t != initialTime {
        timeLeft := t;
      }
      initialTime := t;
    }

    /**
     One run of the countdown effect followed by the decrement it schedules;
     `timedOut` says whether the timeout callback was called.
     */
    method Tick(isActive: bool) returns (timedOut: bool)
      modifies this`timeLeft
      ensures timedOut <==> old(timeLeft) <= 0
      ensures timeLeft == NextTimeLeft(isActive, old(timeLeft))
    {
      var effect := ClockStep(isActive, timeLeft);
      timedOut := effect == TimeOut;
      if effect == Countdown {
        timeLeft := timeLeft - 1;
      }
    }

    /** Sets the clock back to `t` seconds, whatever it showed before. */
    method Reset(t: int)
      modifies this
      ensures initialTime == t && timeLeft == t
    {
      initialTime := t;
      timeLeft := t;
    }

    function Display(): (r: string)
      reads this
      ensures timeLeft >= 0 ==> ParseClock(r) == Some(timeLeft)
    {
      if timeLeft >= 0 then
        FormatTimeRoundTrip(timeLeft);
        FormatTime(timeLeft)
      else FormatTime(timeLeft)
    }
  }

  /** The time left after a render that passes `newInitial` as the `initialTime` prop. */
  function SyncedTimeLeft(prevInitial: int, timeLeft: int, newInitial: int): (t: int)
    ensures newInitial != prevInitial ==> t == newInitial
    ensures newInitial == prevInitial ==> t == timeLeft
  {
    if newInitial != prevInitial then newInitial else timeLeft
  }
}
