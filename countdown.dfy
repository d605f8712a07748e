/**
 * The countdown shown before a scheduled session starts
 * (src/components/countdown-timer.tsx): the split of the remaining time into
 * days, hours, minutes and seconds, the text shown for it, and the timer's
 * one-time completion.
 *
 * Times are integers (milliseconds); each run of `calculateTimeLeft` is one
 * call of `CountdownTimer.Calculate` with the current time as a parameter.
 */
module Countdown {
  import opened Common

  /** Milliseconds in a second, a minute (60 s), an hour (60 min) and a day
      (24 h). */
  const SecondMs := 1000
  const MinuteMs := 60_000
  const HourMs := 3_600_000
  const DayMs := 86_400_000

  const StartingNow := "Session is starting now!"

  datatype Remaining = Remaining(days: nat, hours: nat, minutes: nat, seconds: nat)

  /** The remaining time in whole units; the floors of the source are
      Dafny's division here because `diff` is positive. */
  function Breakdown(diff: int): Remaining
    requires diff > 0
  {
    Remaining(diff / DayMs, (diff % DayMs) / HourMs, (diff % HourMs) / MinuteMs, (diff % MinuteMs) / SecondMs)
  }

  lemma {:induction false} MulAtLeast(d: int, n: int)
    requires d >= 1 && n > 0
    ensures d * n >= n
  {
    assert d * n == (d - 1) * n + n;
  }

  lemma {:induction false} MulMonotone(a: int, b: int, n: int)
    requires a >= b && n > 0
    ensures a * n >= b * n
  {
    assert a * n == (a - b) * n + b * n;
    if a > b {
      MulAtLeast(a - b, n);
    }
  }

  /** Quotient and remainder are the only such pair. */
  lemma {:induction false} DivModUnique(x: int, n: int, k: int, s: int)
    requires n > 0 && 0 <= s < n && x == k * n + s
    ensures x / n == k && x % n == s
  {
    var q, r := x / n, x % n;
    assert (k - q) * n == r - s;
    if k > q {
      MulAtLeast(k - q, n);
    } else if q > k {
      MulAtLeast(q - k, n);
    }
  }

  /** The remainder modulo a multiple `f * n`, split into whole `n`s and the
      remainder modulo `n`. */
  lemma {:induction false} ModOfMultiple(x: int, n: int, f: int)
    requires n > 0 && f > 0
    ensures 0 <= (x % (f * n)) / n < f
    ensures x % n == (x % (f * n)) % n
    ensures x % (f * n) == ((x % (f * n)) / n) * n + x % n
  {
    var q, r := x / (f * n), x % (f * n);
    assert x == q * (f * n) + r;
    assert r == (r / n) * n + r % n;
    assert x == (q * f + r / n) * n + r % n;
    DivModUnique(x, n, q * f + r / n, r % n);
    if r / n >= f {
      MulMonotone(r / n, f, n);
      assert false;
    }
  }

  /** Hours, minutes and seconds are within their ranges, and the units
      together make up the remaining time, less the milliseconds. */
  lemma {:induction false} BreakdownSpec(diff: int)
    requires diff > 0
    ensures var r := Breakdown(diff);
      && r.hours < 24 && r.minutes < 60 && r.seconds < 60
      && var whole := r.days * DayMs + r.hours * HourMs + r.minutes * MinuteMs + r.seconds * SecondMs;
         whole <= diff < whole + SecondMs
  {
    ModOfMultiple(diff, HourMs, 24);
    ModOfMultiple(diff, MinuteMs, 60);
    ModOfMultiple(diff, SecondMs, 60);
  }

  /** The three layouts of the text. */
  datatype Layout = DaysHoursMinutes | HoursMinutesSeconds | MinutesSeconds

  function LayoutOf(r: Remaining): Layout {
    if r.days > 0 then DaysHoursMinutes
    else if r.hours > 0 then HoursMinutesSeconds
    else MinutesSeconds
  }

  function Format(r: Remaining): string {
    match LayoutOf(r)
    case DaysHoursMinutes =>
      NatToString(r.days) + "d " + NatToString(r.hours) + "h " + NatToString(r.minutes) + "m"
    case HoursMinutesSeconds =>
      NatToString(r.hours) + "h " + NatToString(r.minutes) + "m " + NatToString(r.seconds) + "s"
    case MinutesSeconds =>
      NatToString(r.minutes) + "m " + NatToString(r.seconds) + "s"
  }

  /** The text for `diff` milliseconds to go. */
  function Display(diff: int): string {
    if diff <= 0 then StartingNow else Format(Breakdown(diff))
  }

  /** Days are shown from one day out, seconds only under a day, hours only
      from one hour out. */
  lemma {:induction false} LayoutByDistance(diff: int)
    requires diff > 0
    ensures LayoutOf(Breakdown(diff)) ==
      if diff >= DayMs then DaysHoursMinutes
      else if diff >= HourMs then HoursMinutesSeconds
      else MinutesSeconds
  {
    var r := Breakdown(diff);
    BreakdownSpec(diff);
    if diff < DayMs {
      assert r.days == 0;
      if diff < HourMs {
        assert r.hours == 0;
      } else {
        assert r.hours > 0;
      }
    }
  }

  /** Under a second to go, the countdown shows zeros rather than the
      starting message. */
  lemma {:induction false} LastSecondShowsZero(diff: int)
    requires 0 < diff < SecondMs
    ensures Display(diff) == "0m 0s"
  {
    var r := Breakdown(diff);
    assert r == Remaining(0, 0, 0, 0);
    assert NatToString(0) == "0";
  }

  /** The timer's state: the text shown and whether it has completed;
      `completions` counts the calls of `onComplete`. */
  class CountdownTimer {
    var timeLeft: string
    var isComplete: bool
    var completions: nat

    /** `onComplete` has been called exactly when the timer is complete. */
    predicate Valid()
      reads this
    {
      completions == if isComplete then 1 else 0
    }

    constructor ()
      ensures Valid() && timeLeft == "" && !isComplete
    {
      timeLeft := "";
      isComplete := false;
      completions := 0;
    }

    /** One run of `calculateTimeLeft`; the result tells whether the
        interval stops. The distance is written out as `target - now`
        throughout rather than bound to a local. */
    method Calculate(now: int, target: int) returns (done: bool)
      requires Valid()
      modifies this
      ensures Valid()
      ensures done <==> target - now <= 0
      ensures timeLeft == Display(target - now)
      ensures isComplete == (old(isComplete) || done)
      ensures completions == old(completions) + (if done && !old(isComplete) then 1 else 0)
    {
      if target - now <= 0 {
        timeLeft := StartingNow;
        if !isComplete {
          isComplete := true;
          completions := completions + 1;
        }
        return true;
      }
      var days := (target - now) / DayMs;
      var hours := ((target - now) % DayMs) / HourMs;
      var minutes := ((target - now) % HourMs) / MinuteMs;
      var seconds := ((target - now) % MinuteMs) / SecondMs;
      if days > 0 {
        timeLeft := NatToString(days) + "d " + NatToString(hours) + "h " + NatToString(minutes) + "m";
      } else if hours > 0 {
        timeLeft := NatToString(hours) + "h " + NatToString(minutes) + "m " + NatToString(seconds) + "s";
      } else {
        timeLeft := NatToString(minutes) + "m " + NatToString(seconds) + "s";
      }
      return false;
    }
  }

  /** However often the timer runs, `onComplete` is called at most once. */
  method CompletesOnce(times: seq<int>, target: int) returns (t: CountdownTimer)
    ensures t.completions <= 1
    ensures t.completions == 1 <==> exists i :: 0 <= i < |times| && target - times[i] <= 0
  {
    t := new CountdownTimer();
    var k := 0;
    while k < |times|
      invariant 0 <= k <= |times|
      invariant t.Valid()
      invariant t.isComplete <==> exists i :: 0 <= i < k && target - times[i] <= 0
    {
      var _ := t.Calculate(times[k], target);
      k := k + 1;
    }
  }
}
