/**
 * The text in the middle of the timer dial: the remaining time cut into
 * whole minutes and seconds and written as `MM:SS`. The source does this
 * on a signed 64-bit integer with Kotlin's `/` and `%`, which round toward
 * zero; they are spelled out here because Dafny's own operators are
 * Euclidean.
 */
module Dial {
  import opened Schedule

  /** Kotlin's integer `/` for a positive divisor: the quotient rounded toward zero. */
  function TruncDiv(a: int, b: int): (q: int)
    requires b > 0
    ensures a >= 0 ==> 0 <= a - q * b < b
    ensures a < 0 ==> -b < a - q * b <= 0
  {
    if a >= 0 then a / b else -((-a) / b)
  }

  /** Kotlin's integer `%` for a positive divisor: the remainder has the sign of `a`. */
  function TruncRem(a: int, b: int): (r: int)
    requires b > 0
    ensures a >= 0 ==> 0 <= r < b
    ensures a < 0 ==> -b < r <= 0
    ensures a == TruncDiv(a, b) * b + r
  {
    a - TruncDiv(a, b) * b
  }

  /** The two numbers the dial shows. */
  datatype Clock = Clock(minutes: int, seconds: int)

  /**
   * The remaining time in whole seconds, split into minutes and the seconds
   * past the last whole minute. Minutes are not taken modulo 60.
   */
  function Split(millis: int): (c: Clock)
    ensures c.minutes * 60 + c.seconds == TruncDiv(millis, 1000)
    ensures millis >= 0 ==> 0 <= c.minutes && 0 <= c.seconds < 60
    ensures millis >= 0 ==> c.minutes * 60 + c.seconds == millis / 1000
    ensures millis < 0 ==> c.minutes <= 0 && -60 < c.seconds <= 0
  {
    var secs := TruncDiv(millis, 1000);
    Clock(TruncDiv(secs, 60), TruncRem(secs, 60))
  }

  /**
   * The minutes on the dial are the whole minutes remaining, however many:
   * 125 minutes show as 125, not as 5.
   */
  lemma MinutesNotWrapped(millis: int)
    requires millis >= 0
    ensures Split(millis).minutes == millis / MillisPerMinute
    ensures millis >= 60 * MillisPerMinute ==> Split(millis).minutes >= 60
  {
    var c := Split(millis);
    var secs := millis / 1000;
    var r1 := millis % 1000;
    assert millis == secs * 1000 + r1;
    assert secs == c.minutes * 60 + c.seconds;
    assert millis == c.minutes * 60_000 + (c.seconds * 1000 + r1);
    DivModUnique(millis, MillisPerMinute, c.minutes, c.seconds * 1000 + r1);
  }

  /** Right after a reset or a transition the dial shows the configured minutes and 0 seconds. */
  lemma FullPeriodShowsMinutes(s: Settings, m: Mode)
    requires InRange(s)
    ensures Split(DurationFor(s, m)) == Clock(Minutes(s, m), 0)
  {
    var d := DurationFor(s, m);
    assert d == Minutes(s, m) * 60 * 1000 + 0;
    DivModUnique(d, 1000, Minutes(s, m) * 60, 0);
    DivModUnique(d / 1000, 60, Minutes(s, m), 0);
  }

  /** The character for a decimal digit. */
  function DigitChar(d: int): (ch: char)
    requires 0 <= d < 10
    ensures '0' <= ch <= '9' && ch as int - '0' as int == d
  {
    (d + '0' as int) as char
  }

  predicate AllDigits(s: string) {
    forall i :: 0 <= i < |s| ==> '0' <= s[i] <= '9'
  }

  /** The number a string of decimal digits stands for. */
  function DigitsValue(s: string): nat
    requires AllDigits(s)
    decreases |s|
  {
    if s == [] then 0
    else DigitsValue(s[..|s| - 1]) * 10 + (s[|s| - 1] as int - '0' as int)
  }

  /** The decimal digits of `n`, with no leading zero. */
  function Decimal(n: nat): (r: string)
    ensures AllDigits(r) && DigitsValue(r) == n
    ensures 1 <= |r| && (|r| == 1 <==> n < 10) && (n < 100 ==> |r| <= 2)
    ensures n >= 10 ==> r[0] != '0'
    decreases n
  {
    if n < 10 then [DigitChar(n)]
    else
      var front := Decimal(n / 10);
      var r := front + [DigitChar(n % 10)];
      assert r[..|r| - 1] == front;
      r
  }

  /**
   * `%02d` of a number that is not negative: its decimal digits, with one
   * leading zero when there is only one digit.
   */
  function Pad2(n: nat): (r: string)
    ensures AllDigits(r) && DigitsValue(r) == n
    ensures 2 <= |r| && (n < 100 ==> |r| == 2)
    ensures n >= 10 ==> r[0] != '0'
  {
    var d := Decimal(n);
    if n < 10 then
      var r := "0" + d;
      assert r[..|r| - 1] == "0";
      r
    else d
  }

  /** Where the two numbers sit in `mm + ":" + ss`. */
  lemma JoinParts(mm: string, ss: string)
    requires |ss| == 2
    ensures var r := mm + ":" + ss;
      |r| == |mm| + 3 && r[..|r| - 3] == mm && r[|r| - 3] == ':' && r[|r| - 2..] == ss
  {
    var r := mm + ":" + ss;
    assert r[..|r| - 3] == mm;
    assert r[|r| - 2..] == ss;
  }

  /**
   * The dial text `MM:SS` for a remaining time that is not negative. The
   * digits before the colon, times 60, plus the two after it give back the
   * whole seconds remaining, and the two after it are below 60; the text
   * is five characters long below 100 minutes and grows, without a leading
   * zero, instead of wrapping above.
   */
  function Label(millis: int): (r: string)
    requires millis >= 0
    ensures |r| >= 5 && r[|r| - 3] == ':'
    ensures AllDigits(r[..|r| - 3]) && AllDigits(r[|r| - 2..])
    ensures DigitsValue(r[..|r| - 3]) * 60 + DigitsValue(r[|r| - 2..]) == millis / 1000
    ensures DigitsValue(r[|r| - 2..]) < 60
    ensures millis < 100 * MillisPerMinute ==> |r| == 5
    ensures |r| > 5 ==> r[0] != '0'
  {
    var c := Split(millis);
    var mm, ss := Pad2(c.minutes), Pad2(c.seconds);
    JoinParts(mm, ss);
    MinutesNotWrapped(millis);
    mm + ":" + ss
  }
}
