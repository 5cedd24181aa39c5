/**
 The automatic update window (collectorupdate/release.go:162-199): two hours from a
 time of day. Instants are seconds of local time at a fixed offset from UTC, so that
 every day has 86400 of them; fractions of a second don't matter to the comparisons.
 */
module Window {
  import opened Common
  import Text

  const DAY: Time := 86400
  const LENGTH: Time := 7200
  const MINUTES_PER_DAY := 1440

  // ------------------------------------------------- the window itself

  /** When the window of the day dayOffset days from local's opens. */
  function Opening(local: Time, startMin: int, dayOffset: int): Time {
    local - local % DAY + dayOffset * DAY + 60 * startMin
  }

  predicate Within(local: Time, startMin: int, dayOffset: int) {
    var open := Opening(local, startMin, dayOffset);
    open <= local < open + LENGTH
  }

  /** Less than two hours past startMin on the circle of the day. */
  predicate OnCircle(local: Time, startMin: int) {
    (local % DAY - 60 * startMin) % DAY < LENGTH
  }

  predicate InWindow(local: Time, startMin: int) {
    Within(local, startMin, 0) || Within(local, startMin, -1)
  }

  /** InWindow: the loop over today's window and yesterday's. */
  method CheckWindow(local: Time, startMin: int) returns (open: bool)
    ensures open <==> InWindow(local, startMin)
    ensures 0 <= startMin < MINUTES_PER_DAY ==> (open <==> OnCircle(local, startMin))
  {
    if 0 <= startMin < MINUTES_PER_DAY {
      TwoDaysMakeACircle(local, startMin);
    }
    var offsets := [0, -1];
    for i := 0 to |offsets|
      invariant forall j :: 0 <= j < i ==> !Within(local, startMin, offsets[j])
    {
      var opens := Opening(local, startMin, offsets[i]);
      if opens <= local < opens + LENGTH {
        return true;
      }
    }
    assert !Within(local, startMin, offsets[0]) && !Within(local, startMin, offsets[1]);
    return false;
  }

  lemma ModOf(x: int, k: int)
    requires 0 <= x + k * DAY < DAY
    ensures x % DAY == x + k * DAY
  {
  }

  lemma TwoDaysMakeACircle(local: Time, startMin: int)
    requires 0 <= startMin <= 2760
    ensures InWindow(local, startMin) <==> OnCircle(local, startMin)
  {
    var x := local % DAY - 60 * startMin;
    assert Within(local, startMin, 0) <==> 0 <= x < LENGTH;
    assert Within(local, startMin, -1) <==> 0 <= x + DAY < LENGTH;
    if x >= 0 {
      ModOf(x, 0);
    } else if x >= -DAY {
      ModOf(x, 1);
    } else {
      ModOf(x, 2);
    }
  }

  /**
   Looking at two days is enough for the circle exactly when the window opens on
   one of 0 .. 2760 minutes, which takes in all that a row can hold (0 .. 1439).
   */
  lemma TwoDaysAreEnoughExactly(startMin: int)
    ensures (forall local :: InWindow(local, startMin) <==> OnCircle(local, startMin)) <==> 0 <= startMin <= 2760
  {
    if 0 <= startMin <= 2760 {
      forall local ensures InWindow(local, startMin) <==> OnCircle(local, startMin) {
        TwoDaysMakeACircle(local, startMin);
      }
    } else {
      MissedByTwoDays(startMin);
    }
  }

  /** A window that opens before the day or far into the next ones is open at times the loop doesn't find. */
  lemma MissedByTwoDays(startMin: int)
    requires startMin < 0 || startMin > 2760
    ensures exists local :: OnCircle(local, startMin) && !InWindow(local, startMin)
  {
    var k := (60 * startMin) / DAY;
    var start := 60 * startMin - k * DAY;
    var local := if -120 <= startMin < 0 then DAY - 1 else if 2760 < startMin <= 2880 then 0 else start;
    assert local % DAY == local;
    var x := local - 60 * startMin;
    if local == start {
      ModOf(x, k);
    } else {
      ModOf(x, if startMin < 0 then -1 else 2);
    }
    assert OnCircle(local, startMin) && !InWindow(local, startMin);
  }

  // ------------------------------------------------- its text form

  function FormatWindow(min: nat): string {
    Text.TwoDigits(min / 60) + ":" + Text.TwoDigits(min % 60)
  }

  /** The hour that starts t, in one or two digits, and what follows it. */
  function Hour(t: string): Option<(nat, string)> {
    if t == "" || !Text.IsDigit(t[0]) then None
    else if |t| == 1 || !Text.IsDigit(t[1]) then Some((Text.DigitValue(t[0]), t[1..]))
    else Some((10 * Text.DigitValue(t[0]) + Text.DigitValue(t[1]), t[2..]))
  }

  /** A colon and two digits below 60. */
  function Minute(t: string): Option<nat> {
    if |t| != 3 || t[0] != ':' || !Text.IsDigit(t[1]) || !Text.IsDigit(t[2]) then None
    else
      var m := 10 * Text.DigitValue(t[1]) + Text.DigitValue(t[2]);
      if m < 60 then Some(m) else None
  }

  function ParseWindow(s: string): Option<nat> {
    match Hour(Text.Trim(s))
    case None => None
    case Some((hour, rest)) =>
      var minute := Minute(rest);
      if hour < 24 && minute.Some? then Some(hour * 60 + minute.value) else None
  }

  lemma DigitsAreTheirValues(c: char)
    requires Text.IsDigit(c)
    ensures c == Text.Digit(Text.DigitValue(c))
  {
  }

  function Clock(hour: nat, minute: nat): string
    requires hour < 24 && minute < 60
  {
    [Text.Digit(hour / 10), Text.Digit(hour % 10), ':', Text.Digit(minute / 10), Text.Digit(minute % 10)]
  }

  lemma FormatIsClock(hour: nat, minute: nat)
    requires hour < 24 && minute < 60
    ensures FormatWindow(hour * 60 + minute) == Clock(hour, minute)
  {
    assert (hour * 60 + minute) / 60 == hour;
  }

  lemma TwoDigitValue(a: char, b: char)
    requires Text.IsDigit(a) && Text.IsDigit(b)
    ensures var n := 10 * Text.DigitValue(a) + Text.DigitValue(b); a == Text.Digit(n / 10) && b == Text.Digit(n % 10)
  {
    DigitsAreTheirValues(a);
    DigitsAreTheirValues(b);
  }

  /** What is parsed is a clock time, perhaps without its first zero. */
  lemma ParsedIsClock(t: string, hour: nat, rest: string, minute: nat)
    requires Hour(t) == Some((hour, rest)) && hour < 24 && Minute(rest) == Some(minute)
    ensures t == Clock(hour, minute) || (hour < 10 && t == Clock(hour, minute)[1..])
  {
    TwoDigitValue(rest[1], rest[2]);
    assert rest == Clock(hour, minute)[2..];
    if |rest| == |t| - 1 {
      DigitsAreTheirValues(t[0]);
      assert t == [t[0]] + rest;
    } else {
      TwoDigitValue(t[0], t[1]);
      assert t == [t[0], t[1]] + rest;
    }
  }

  lemma ClockIsParsed(t: string, hour: nat, minute: nat)
    requires hour < 24 && minute < 60
    requires t == Clock(hour, minute) || (hour < 10 && t == Clock(hour, minute)[1..])
    ensures Hour(t).Some? && Hour(t).value.0 == hour && Minute(Hour(t).value.1) == Some(minute)
  {
    var rest := Clock(hour, minute)[2..];
    if t == Clock(hour, minute) {
      assert t[2..] == rest;
    } else {
      assert t[1..] == rest;
    }
  }

  lemma ParseIsClock(s: string, hour: nat, minute: nat)
    requires hour < 24 && minute < 60
    ensures ParseWindow(s) == Some(hour * 60 + minute)
            <==> Text.Trim(s) == Clock(hour, minute) || (hour < 10 && Text.Trim(s) == Clock(hour, minute)[1..])
  {
    var t := Text.Trim(s);
    if ParseWindow(s) == Some(hour * 60 + minute) {
      var (h, rest) := Hour(t).value;
      ParsedIsClock(t, h, rest, Minute(rest).value);
    } else if t == Clock(hour, minute) || (hour < 10 && t == Clock(hour, minute)[1..]) {
      ClockIsParsed(t, hour, minute);
      assert false;
    }
  }

  lemma ParseIsInTheDay(s: string)
    ensures ParseWindow(s).Some? ==> ParseWindow(s).value < MINUTES_PER_DAY
  {
  }

  /**
   ParseWindow accepts what FormatWindow prints, with spaces around it or without
   the zero of a one-digit hour, and nothing else.
   */
  lemma ParsesExactlyWhatIsPrinted(s: string, min: nat)
    ensures ParseWindow(s) == Some(min)
            <==> min < MINUTES_PER_DAY
                 && (Text.Trim(s) == FormatWindow(min) || (min < 600 && Text.Trim(s) == FormatWindow(min)[1..]))
  {
    if min < MINUTES_PER_DAY {
      FormatIsClock(min / 60, min % 60);
      ParseIsClock(s, min / 60, min % 60);
    } else {
      ParseIsInTheDay(s);
    }
  }

  lemma ClockIsTrimmed(hour: nat, minute: nat)
    requires hour < 24 && minute < 60
    ensures Text.Trim(Clock(hour, minute)) == Clock(hour, minute)
  {
    Text.TrimmedStays(Clock(hour, minute));
  }

  lemma ClockRoundTrip(hour: nat, minute: nat)
    requires hour < 24 && minute < 60
    ensures ParseWindow(Clock(hour, minute)) == Some(hour * 60 + minute)
  {
    ClockIsTrimmed(hour, minute);
    ClockIsParsed(Clock(hour, minute), hour, minute);
  }

  /** So parsing inverts printing. */
  lemma ParseInvertsFormat(min: nat)
    requires min < MINUTES_PER_DAY
    ensures ParseWindow(FormatWindow(min)) == Some(min)
  {
    var hour, minute := min / 60, min % 60;
    assert hour * 60 + minute == min;
    assert FormatWindow(min) == Clock(hour, minute) by {
      FormatIsClock(hour, minute);
    }
    ClockRoundTrip(hour, minute);
  }
}
