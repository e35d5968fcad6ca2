/** The countdown shown on the landing page: the time left until the event,
    split into days, hours, minutes and seconds, each shown as at least two
    digits. The clock reading `now` and the target instant are integer
    milliseconds passed in by the caller. */
module Countdown {
  import Text

  const MsPerSecond: nat := 1000
  const MsPerMinute: nat := 1000 * 60
  const MsPerHour: nat := 1000 * 60 * 60
  const MsPerDay: nat := 1000 * 60 * 60 * 24

  datatype TimeLeft = TimeLeft(days: int, hours: int, minutes: int, seconds: int)

  /** The milliseconds a decomposition stands for. */
  function Total(t: TimeLeft): int {
    t.days * MsPerDay + t.hours * MsPerHour + t.minutes * MsPerMinute + t.seconds * MsPerSecond
  }

  /** Hours, minutes and seconds within their clock ranges, days unbounded. */
  predicate InRange(t: TimeLeft) {
    t.days >= 0 && 0 <= t.hours < 24 && 0 <= t.minutes < 60 && 0 <= t.seconds < 60
  }

  /** The state before the first update: every field is zero. */
  function Initial(): (t: TimeLeft)
    ensures InRange(t) && Total(t) == 0
    ensures t.days == 0 && t.hours == 0 && t.minutes == 0 && t.seconds == 0
  {
    TimeLeft(0, 0, 0, 0)
  }

  /** One update: the source divides the remaining milliseconds without
      negative operands (the positive branch only), so floor division and
      Dafny's Euclidean `/` and `%` agree. */
  function UpdateCountdown(now: int, target: int): (t: TimeLeft)
    ensures InRange(t)
    ensures target - now <= 0 ==> t == Initial()
    ensures target - now > 0 ==> Total(t) <= target - now < Total(t) + MsPerSecond
  {
    var difference := target - now;
    if difference > 0 then
      var t := TimeLeft(difference / MsPerDay,
                        (difference % MsPerDay) / MsPerHour,
                        (difference % MsPerHour) / MsPerMinute,
                        (difference % MsPerMinute) / MsPerSecond);
      DecompositionSound(difference);
      t
    else
      TimeLeft(0, 0, 0, 0)
  }

  lemma DecompositionSound(d: nat)
    ensures var t := TimeLeft(d / MsPerDay, (d % MsPerDay) / MsPerHour,
                              (d % MsPerHour) / MsPerMinute, (d % MsPerMinute) / MsPerSecond);
            InRange(t) && Total(t) <= d < Total(t) + MsPerSecond
  {
    var r := d % MsPerDay;
    assert d == (d / MsPerDay) * MsPerDay + r;
    assert r % MsPerHour == d % MsPerHour by { ModOfMultiple(d, MsPerHour, 24); }
    assert (d % MsPerHour) % MsPerMinute == d % MsPerMinute by { ModOfMultiple(d, MsPerMinute, 60); }
    assert (d % MsPerMinute) % MsPerSecond == d % MsPerSecond by { ModOfMultiple(d, MsPerSecond, 60); }
  }

  /** Reducing modulo a multiple of m first does not change the remainder mod m. */
  lemma ModOfMultiple(d: nat, m: nat, k: nat)
    requires m > 0 && k > 0
    ensures (d % (m * k)) % m == d % m
  {
    var q := d / (m * k);
    var r := d % (m * k);
    assert d == q * (m * k) + r;
    assert d == (q * k) * m + r;
    var r2 := r % m;
    assert r == (r / m) * m + r2;
    assert d == (q * k + r / m) * m + r2;
    assert 0 <= r2 < m;
    DivModUnique(d, m, q * k + r / m, r2);
  }

  lemma DivModUnique(d: int, m: int, q: int, r: int)
    requires m > 0 && d == q * m + r && 0 <= r < m
    ensures d % m == r && d / m == q
  {
    var q0, r0 := d / m, d % m;
    assert d == q0 * m + r0;
    if q0 > q {
      MulAtLeastOneMore(q0, q, m);
    } else if q0 < q {
      MulAtLeastOneMore(q, q0, m);
    }
  }

  lemma MulAtLeastOneMore(a: int, b: int, m: int)
    requires a > b && m > 0
    ensures a * m >= b * m + m
  {
    var k := a - b - 1;
    assert a == b + 1 + k;
    assert a * m == b * m + m + k * m;
  }

  /** The decomposition is the only in-range one that drops less than a second:
      any decomposition with the same two properties equals the update's. */
  lemma DecompositionUnique(now: int, target: int, t: TimeLeft)
    requires target - now > 0
    requires InRange(t) && Total(t) <= target - now < Total(t) + MsPerSecond
    ensures t == UpdateCountdown(now, target)
  {
    var d := target - now;
    var u := UpdateCountdown(now, target);
    BelowOneDay(t);
    BelowOneDay(u);
    DivModUnique(d, MsPerDay, t.days, d - t.days * MsPerDay);
    DivModUnique(d, MsPerDay, u.days, d - u.days * MsPerDay);
    var rest := d - t.days * MsPerDay;
    BelowOneHour(t);
    BelowOneHour(u);
    DivModUnique(rest, MsPerHour, t.hours, rest - t.hours * MsPerHour);
    DivModUnique(rest, MsPerHour, u.hours, rest - u.hours * MsPerHour);
    var rest2 := rest - t.hours * MsPerHour;
    DivModUnique(rest2, MsPerMinute, t.minutes, rest2 - t.minutes * MsPerMinute);
    DivModUnique(rest2, MsPerMinute, u.minutes, rest2 - u.minutes * MsPerMinute);
  }

  lemma BelowOneDay(t: TimeLeft)
    requires InRange(t)
    ensures 0 <= Total(t) - t.days * MsPerDay <= MsPerDay - MsPerSecond
  {
  }

  lemma BelowOneHour(t: TimeLeft)
    requires InRange(t)
    ensures 0 <= Total(t) - t.days * MsPerDay - t.hours * MsPerHour <= MsPerHour - MsPerSecond
  {
  }

  /** The days figure is the number of whole days left. */
  lemma DaysAreWholeDays(now: int, target: int)
    requires target - now > 0
    ensures UpdateCountdown(now, target).days == (target - now) / MsPerDay
  {
    var d := target - now;
    var t := UpdateCountdown(now, target);
    BelowOneDay(t);
    DivModUnique(d, MsPerDay, t.days, d - t.days * MsPerDay);
  }

  /** `value.toString().padStart(2, '0')` for one field. */
  function Display(value: nat): (s: string)
    ensures |s| >= 2 && Text.AllDigits(s)
    ensures Text.DigitsValue(s) == value
    ensures value >= 10 ==> s == Text.NatToString(value)
    ensures value < 10 ==> s == ['0', Text.DigitChar(value)]
  {
    var digits := Text.NatToString(value);
    Text.DigitsValueOfNatToString(value);
    Text.DigitsValueZeroPadded(digits, if |digits| >= 2 then 0 else 2 - |digits|);
    assert |digits| >= 2 ==> Text.Repeat('0', 0) + digits == digits;
    Text.PadStart(digits, 2, '0')
  }

  /** The four displayed figures, in the order days, hours, minutes, seconds. */
  function DisplayAll(t: TimeLeft): (shown: seq<string>)
    requires InRange(t)
    ensures |shown| == 4
    ensures forall i :: 0 <= i < 4 ==> |shown[i]| >= 2 && Text.AllDigits(shown[i])
    ensures Text.DigitsValue(shown[0]) == t.days && Text.DigitsValue(shown[1]) == t.hours
    ensures Text.DigitsValue(shown[2]) == t.minutes && Text.DigitsValue(shown[3]) == t.seconds
  {
    [Display(t.days), Display(t.hours), Display(t.minutes), Display(t.seconds)]
  }

  /** A clock field below 60 is shown as exactly two digits. */
  lemma ClockFieldsTwoDigits(t: TimeLeft)
    requires InRange(t)
    ensures |Display(t.hours)| == 2 && |Display(t.minutes)| == 2 && |Display(t.seconds)| == 2
  {
    TwoDigitsBelowHundred(t.hours);
    TwoDigitsBelowHundred(t.minutes);
    TwoDigitsBelowHundred(t.seconds);
  }

  lemma TwoDigitsBelowHundred(v: nat)
    requires v < 100
    ensures |Display(v)| == 2
  {
    if v >= 10 {
      assert Text.NatToString(v) == Text.NatToString(v / 10) + [Text.DigitChar(v % 10)];
    }
  }
}
