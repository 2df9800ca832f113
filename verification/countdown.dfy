/**
 * The time-remaining label both campaign pages show: whole days while at least
 * a day is left, whole hours while at least an hour is left, and "Ending soon"
 * otherwise, counted in seconds from `Math.floor(Date.now() / 1000)`.
 */
module Countdown {
  import opened Numbers

  const SecondsPerDay := 86400
  const SecondsPerHour := 3600

  datatype TimeLeft = Days(n: nat) | Hours(n: nat) | EndingSoon

  /**
   * `Math.floor(remaining / 86400)` and `Math.floor(remaining / 3600)`, where
   * `remaining = deadline - now`; Dafny's `/` by a positive divisor is the floor.
   */
  function Bucket(deadline: int, now: int): (t: TimeLeft)
    ensures t.Days? <==> deadline - now >= SecondsPerDay
    ensures t.Days? ==> t.n >= 1 && t.n * SecondsPerDay <= deadline - now < (t.n + 1) * SecondsPerDay
    ensures t.Hours? <==> SecondsPerHour <= deadline - now < SecondsPerDay
    ensures t.Hours? ==> 1 <= t.n <= 23 && t.n * SecondsPerHour <= deadline - now < (t.n + 1) * SecondsPerHour
    ensures t.EndingSoon? <==> deadline - now < SecondsPerHour
  {
    var remaining := deadline - now;
    var days := remaining / SecondsPerDay;
    if days > 0 then Days(days)
    else
      var hours := remaining / SecondsPerHour;
      if hours > 0 then Hours(hours) else EndingSoon
  }

  /** The least number of seconds a bucket promises are left. */
  function Floor(t: TimeLeft): int {
    match t
    case Days(n) => n * SecondsPerDay
    case Hours(n) => n * SecondsPerHour
    case EndingSoon => 0
  }

  /** As time passes the countdown never goes up: a later `now` never promises more time left. */
  lemma {:induction false} CountdownNeverRises(deadline: int, now1: int, now2: int)
    requires now1 <= now2
    ensures Floor(Bucket(deadline, now2)) <= Floor(Bucket(deadline, now1))
  {
    var r1, r2 := deadline - now1, deadline - now2;
    DivMonotone(r2, r1, SecondsPerDay);
    DivMonotone(r2, r1, SecondsPerHour);
    var t1, t2 := Bucket(deadline, now1), Bucket(deadline, now2);
    if t2.Days? {
      assert t1.Days? && t2.n <= t1.n;
    } else if t2.Hours? && t1.Days? {
      assert t2.n * SecondsPerHour < SecondsPerDay <= t1.n * SecondsPerDay;
    } else if t2.Hours? {
      assert t1.Hours? && t2.n <= t1.n;
    }
  }

  function DigitChar(d: nat): char
    requires d < 10
  {
    ('0' as int + d) as char
  }

  predicate IsDigit(c: char) { '0' <= c <= '9' }

  function DigitOf(c: char): nat
    requires IsDigit(c)
  {
    (c as int) - ('0' as int)
  }

  /** Decimal rendering of a natural number, as template interpolation gives it. */
  function Decimal(n: nat): (s: string)
    ensures |s| >= 1 && forall i :: 0 <= i < |s| ==> IsDigit(s[i])
  {
    if n < 10 then [DigitChar(n)] else Decimal(n / 10) + [DigitChar(n % 10)]
  }

  /** Reading decimal digits back: a left fold, most significant digit first. */
  function DecimalValue(s: string): nat
    requires forall i :: 0 <= i < |s| ==> IsDigit(s[i])
  {
    if |s| == 0 then 0 else 10 * DecimalValue(s[..|s| - 1]) + DigitOf(s[|s| - 1])
  }

  /** The rendered count reads back as the count. */
  lemma {:induction false} DecimalRoundTrip(n: nat)
    ensures DecimalValue(Decimal(n)) == n
  {
    if n < 10 {
      assert Decimal(n)[..0] == [];
    } else {
      DecimalRoundTrip(n / 10);
      var high := Decimal(n / 10);
      var s := high + [DigitChar(n % 10)];
      assert Decimal(n) == s;
      assert s[..|s| - 1] == high;
      assert DecimalValue(s) == 10 * DecimalValue(high) + n % 10;
    }
  }

  /**
   * `formatTimeRemaining`: `"<n> days <suffix>"`, `"<n> hours <suffix>"` or
   * `"Ending soon"`; the pages differ only in the suffix.
   */
  function Label(t: TimeLeft, suffix: string): (r: string)
    ensures |r| >= 1
    ensures IsDigit(r[0]) <==> !t.EndingSoon?
    ensures t.Days? ==> r == Decimal(t.n) + " days " + suffix
    ensures t.Hours? ==> r == Decimal(t.n) + " hours " + suffix
    ensures t.EndingSoon? ==> r == "Ending soon"
  {
    match t
    case Days(n) => Decimal(n) + " days " + suffix
    case Hours(n) => Decimal(n) + " hours " + suffix
    case EndingSoon => "Ending soon"
  }

  /** A run of digits followed by a non-digit is recovered from the concatenation. */
  lemma DigitsSplit(a: string, x: string, b: string, y: string)
    requires forall i :: 0 <= i < |a| ==> IsDigit(a[i])
    requires forall i :: 0 <= i < |b| ==> IsDigit(b[i])
    requires |x| > 0 && !IsDigit(x[0]) && |y| > 0 && !IsDigit(y[0])
    requires a + x == b + y
    ensures a == b && x == y
  {
    assert !IsDigit((a + x)[|a|]) && !IsDigit((b + y)[|b|]);
    assert forall i :: 0 <= i < |a| ==> IsDigit((a + x)[i]);
    assert forall i :: 0 <= i < |b| ==> IsDigit((b + y)[i]);
    assert a == (a + x)[..|a|] && b == (b + y)[..|b|];
    assert x == (a + x)[|a|..] && y == (b + y)[|b|..];
  }

  /**
   * The label loses nothing: for a fixed suffix, two buckets with the same
   * label are the same bucket, count included.
   */
  lemma LabelDeterminesBucket(t1: TimeLeft, t2: TimeLeft, suffix: string)
    requires Label(t1, suffix) == Label(t2, suffix)
    ensures t1 == t2
  {
    if !t1.EndingSoon? && !t2.EndingSoon? {
      var unit1 := LabelUnit(t1, suffix);
      var unit2 := LabelUnit(t2, suffix);
      DigitsSplit(Decimal(t1.n), unit1, Decimal(t2.n), unit2);
      DecimalRoundTrip(t1.n);
      DecimalRoundTrip(t2.n);
    }
  }

  /** A counted label splits into the count and a unit whose second letter names the bucket. */
  lemma LabelUnit(t: TimeLeft, suffix: string) returns (unit: string)
    requires !t.EndingSoon?
    ensures Label(t, suffix) == Decimal(t.n) + unit
    ensures |unit| > 1 && unit[0] == ' ' && (unit[1] == 'd' <==> t.Days?)
  {
    unit := (if t.Days? then " days " else " hours ") + suffix;
  }
}
