/**
 * Clock arithmetic shared by both chat scrapers. An instant is a whole number
 * of seconds since 1970-01-01T00:00:00 UTC; dates and hours are read off it
 * with floor division, as Python's `datetime` does.
 */
module Clock {
  import opened Wrappers
  import opened PyStrings

  const SecondsPerMinute := 60
  const SecondsPerHour := 3600
  const SecondsPerDay := 86400

  /** A clock-face time parsed from "H:MM AM/PM", after the 12-hour to 24-hour adjustment. */
  datatype ClockTime = ClockTime(hour: int, minute: int)

  /**
   * The AM/PM adjustment: add 12 to a PM hour other than 12, then turn an AM
   * hour of 12 into 0. Both tests are substring tests on the second word.
   */
  function To24Hour(hour: int, marker: string): int {
    var h := if Contains(marker, "PM") && hour != 12 then hour + 12 else hour;
    if Contains(marker, "AM") && h == 12 then 0 else h
  }

  /** On the two markers the page shows, the adjustment is the usual 12-hour clock. */
  lemma To24HourClockFace(hour: int)
    requires 1 <= hour <= 12
    ensures To24Hour(hour, "AM") == (if hour == 12 then 0 else hour)
    ensures To24Hour(hour, "PM") == (if hour == 12 then 12 else hour + 12)
    ensures 0 <= To24Hour(hour, "AM") < 12 <= To24Hour(hour, "PM") < 24
  {
    assert Contains("PM", "PM") && !Contains("PM", "AM");
    assert Contains("AM", "AM") && !Contains("AM", "PM");
  }

  /**
   * `hour, minute_ampm = ts.split()`, `hour, minute = map(int, hour.split(":"))`
   * and the AM/PM adjustment. `None` stands for the `ValueError` that a wrong
   * number of words or parts, or a part that is not an integer, raises.
   */
  function ParseClock(ts: string): Option<ClockTime> {
    var words := Split(ts);
    if |words| != 2 then None
    else
      var parts := SplitOn(words[0], ':');
      if |parts| != 2 then None
      else
        match (ParseInt(parts[0]), ParseInt(parts[1]))
        case (Some(h), Some(m)) => Some(ClockTime(To24Hour(h, words[1]), m))
        case _ => None
  }

  /** `datetime.replace(hour=..., minute=...)` accepts exactly these; anything else is a `ValueError`. */
  predicate InRange(t: ClockTime) {
    0 <= t.hour < 24 && 0 <= t.minute < 60
  }

  function DayOf(t: int): int {
    t / SecondsPerDay
  }

  function HourOf(t: int): int {
    (t % SecondsPerDay) / SecondsPerHour
  }

  function MinuteOf(t: int): int {
    (t % SecondsPerHour) / SecondsPerMinute
  }

  function SecondOf(t: int): int {
    t % SecondsPerMinute
  }

  /** The instant at clock time `c` on day `day`, seconds zero. */
  function At(day: int, c: ClockTime): int {
    day * SecondsPerDay + c.hour * SecondsPerHour + c.minute * SecondsPerMinute
  }

  /** Reading the date, hour, minute and second back off `At(day, c)` gives `day`, `c` and 0. */
  lemma AtFields(day: int, c: ClockTime)
    requires InRange(c)
    ensures DayOf(At(day, c)) == day
    ensures HourOf(At(day, c)) == c.hour
    ensures MinuteOf(At(day, c)) == c.minute
    ensures SecondOf(At(day, c)) == 0
  {
    var x := c.hour * SecondsPerHour + c.minute * SecondsPerMinute;
    assert 0 <= x < SecondsPerDay;
    DivModUnique(At(day, c), SecondsPerDay, day, x);
    var y := c.minute * SecondsPerMinute;
    DivModUnique(x, SecondsPerHour, c.hour, y);
    DivModUnique(At(day, c), SecondsPerHour, day * 24 + c.hour, y);
    DivModUnique(y, SecondsPerMinute, c.minute, 0);
    DivModUnique(At(day, c), SecondsPerMinute, day * 1440 + c.hour * 60 + c.minute, 0);
  }

  /** Floor division is determined by quotient and remainder. */
  lemma DivModUnique(a: int, b: int, q: int, r: int)
    requires b > 0 && a == q * b + r && 0 <= r < b
    ensures a / b == q && a % b == r
  {
    var q', r' := a / b, a % b;
    assert a == q' * b + r' && 0 <= r' < b;
    if q' < q {
      assert (q - q') * b >= b by { MulAtLeast(q - q', b); }
    } else if q' > q {
      assert (q' - q) * b >= b by { MulAtLeast(q' - q, b); }
    }
  }

  lemma MulAtLeast(k: int, b: int)
    requires k >= 1 && b > 0
    ensures k * b >= b
  {
  }

  /**
   * `round(seconds / 60) * 60` on whole seconds: the nearest whole minute, a
   * tie (30 seconds past) going to the even minute as Python's `round` does.
   */
  function RoundToMinute(t: int): (r: int)
    ensures r % SecondsPerMinute == 0
    ensures t - 30 <= r <= t + 30
  {
    var q, rem := t / 60, t % 60;
    if rem < 30 || (rem == 30 && q % 2 == 0) then q * 60 else (q + 1) * 60
  }

  /** A time already on a whole minute rounds to itself, so rounding twice is rounding once. */
  lemma RoundToMinuteIdempotent(t: int)
    ensures RoundToMinute(RoundToMinute(t)) == RoundToMinute(t)
  {
    var r := RoundToMinute(t);
    DivModUnique(r, 60, r / 60, 0);
  }

  /** No whole minute is strictly closer to `t` than `RoundToMinute(t)`. */
  lemma RoundToMinuteNearest(t: int, m: int)
    requires m % SecondsPerMinute == 0
    ensures Dist(t, RoundToMinute(t)) <= Dist(t, m)
  {
    var r := RoundToMinute(t);
    var km, kr := m / 60, r / 60;
    assert m == km * 60 && r == kr * 60;
    if km < kr {
      assert m <= r - 60 by { MulLe(km, kr - 1); }
    } else if km > kr {
      assert m >= r + 60 by { MulLe(kr + 1, km); }
    }
  }

  lemma MulLe(a: int, b: int)
    requires a <= b
    ensures a * 60 <= b * 60
  {
  }

  function Dist(a: int, b: int): nat {
    if a <= b then b - a else a - b
  }

  /** A tie goes to the even minute. */
  lemma RoundToMinuteHalfToEven(t: int)
    requires t % SecondsPerMinute == 30
    ensures (RoundToMinute(t) / SecondsPerMinute) % 2 == 0
  {
    var q := t / 60;
    if q % 2 == 0 {
      assert RoundToMinute(t) == q * 60;
      DivModUnique(q * 60, 60, q, 0);
    } else {
      assert RoundToMinute(t) == (q + 1) * 60;
      DivModUnique((q + 1) * 60, 60, q + 1, 0);
      assert (q + 1) % 2 == 0;
    }
  }

  /** Rounding keeps the order of instants. */
  lemma RoundToMinuteMonotone(a: int, b: int)
    requires a <= b
    ensures RoundToMinute(a) <= RoundToMinute(b)
  {
    var ra, rb := RoundToMinute(a), RoundToMinute(b);
    if ra > rb {
      RoundToMinuteNearest(a, rb);
      RoundToMinuteNearest(b, ra);
    }
  }

  /** Year, month and day of a day number (days since 1970-01-01), proleptic Gregorian calendar. */
  function CivilFromDays(days: int): (int, int, int) {
    var z := days + 719468;
    var era := z / 146097;
    var doe := z % 146097;
    var yoe := (doe - doe / 1460 + doe / 36524 - doe / 146096) / 365;
    var doy := doe - (365 * yoe + yoe / 4 - yoe / 100);
    var mp := (5 * doy + 2) / 153;
    var d := doy - (153 * mp + 2) / 5 + 1;
    var m := if mp < 10 then mp + 3 else mp - 9;
    (if m <= 2 then yoe + era * 400 + 1 else yoe + era * 400, m, d)
  }

  /** `n` in decimal, zero-padded on the left to `width` digits. */
  function Padded(n: int, width: nat): string {
    var digits := if n < 0 then NatToString(-n) else NatToString(n);
    var zeros := if |digits| < width then seq(width - |digits|, _ => '0') else [];
    (if n < 0 then "-" else "") + zeros + digits
  }

  /** `dt.isoformat()` of the UTC `datetime` at instant `t`: "YYYY-MM-DDTHH:MM:SS+00:00". */
  function IsoFormat(t: int): string {
    var (y, mo, d) := CivilFromDays(DayOf(t));
    Padded(y, 4) + "-" + Padded(mo, 2) + "-" + Padded(d, 2)
      + "T" + Padded(HourOf(t), 2) + ":" + Padded(MinuteOf(t), 2) + ":" + Padded(SecondOf(t), 2)
      + "+00:00"
  }
}
