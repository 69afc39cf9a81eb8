/**
 * formatTime of the home screen: milliseconds rendered as minutes and
 * zero-padded seconds, "%d:%02d", with Kotlin's Int division and remainder
 * (both truncate toward zero).
 */
module TimeFormat {
  import opened Wrappers

  /** Kotlin's Int. */
  type Int32 = x: int | -0x8000_0000 <= x < 0x8000_0000

  /** Integer division truncating toward zero, as `/` on Int does. */
  function Quot(a: int, b: int): (q: int)
    requires b > 0
    ensures a >= 0 ==> 0 <= a - b * q < b
    ensures a < 0 ==> -b < a - b * q <= 0
    ensures a >= 0 ==> q == a / b
  {
    if a >= 0 then a / b else -((-a) / b)
  }

  /** The remainder that goes with Quot: it takes the sign of the dividend. */
  function Rem(a: int, b: int): (m: int)
    requires b > 0
    ensures a == b * Quot(a, b) + m
    ensures a >= 0 ==> 0 <= m < b && m == a % b
    ensures a < 0 ==> -b < m <= 0
  {
    a - b * Quot(a, b)
  }

  /** The minutes and remaining seconds formatTime prints. */
  function ClockFields(millis: Int32): (r: (int, int))
    ensures millis >= 0 ==>
      r.0 == millis / 1000 / 60 && r.1 == (millis / 1000) % 60
      && 0 <= r.1 < 60 && r.0 * 60 + r.1 == millis / 1000
    ensures millis < 0 ==>
      r.0 <= 0 && -60 < r.1 <= 0 && r.0 * 60 + r.1 == -((-(millis as int)) / 1000)
  {
    var seconds := Quot(millis, 1000);
    (Quot(seconds, 60), Rem(seconds, 60))
  }

  predicate IsDigit(c: char) {
    '0' <= c <= '9'
  }

  predicate AllDigits(s: string) {
    forall i :: 0 <= i < |s| ==> IsDigit(s[i])
  }

  function DigitChar(d: int): (c: char)
    requires 0 <= d < 10
    ensures IsDigit(c) && c as int - '0' as int == d
  {
    ('0' as int + d) as char
  }

  /** The decimal digits of n, without leading zeros ("%d" of a non-negative number). */
  function Decimal(n: nat): (r: string)
    ensures |r| >= 1 && AllDigits(r)
    ensures |r| > 1 ==> r[0] != '0'
    ensures n < 10 <==> |r| == 1
    decreases n
  {
    if n < 10 then [DigitChar(n)] else Decimal(n / 10) + [DigitChar(n % 10)]
  }

  /** "%d": the digits of the magnitude, after a minus sign for a negative number. */
  function FormatD(n: int): (r: string)
    ensures n >= 0 ==> AllDigits(r) && DigitsValue(r) == n
    ensures n < 0 ==> |r| >= 2 && r[0] == '-' && AllDigits(r[1..]) && DigitsValue(r[1..]) == -n
  {
    if n < 0 then
      var digits := Decimal(-n);
      DecimalRoundTrip(-n);
      assert ("-" + digits)[1..] == digits;
      "-" + digits
    else
      DecimalRoundTrip(n);
      Decimal(n)
  }

  /**
   * "%02d": zero-padded to width two; a negative number already has two
   * characters, sign included, so it is not padded.
   */
  function Format02D(n: int): (r: string)
    ensures |r| >= 2
    ensures 0 <= n < 100 ==> |r| == 2
    ensures n >= 0 ==> AllDigits(r) && DigitsValue(r) == n
    ensures n < 0 ==> r == FormatD(n) && r[0] == '-' && AllDigits(r[1..]) && DigitsValue(r[1..]) == -n
  {
    if n < 0 then FormatD(n)
    else if n < 10 then
      var padded := "0" + Decimal(n);
      assert padded == ['0', DigitChar(n)];
      assert padded[..|padded| - 1] == "0" && DigitsValue("0") == 0;
      padded
    else
      DecimalRoundTrip(n);
      Decimal(n)
  }

  /** formatTime: "<minutes>:<seconds>", seconds always two characters. */
  function FormatTime(millis: Int32): (r: string)
    ensures millis >= 0 ==>
      |r| >= 4 && r[|r| - 3] == ':' && AllDigits(r[|r| - 2..]) && AllDigits(r[..|r| - 3])
  {
    var (minutes, seconds) := ClockFields(millis);
    FormatD(minutes) + ":" + Format02D(seconds)
  }

  /** The value of a string of decimal digits. */
  function DigitsValue(s: string): nat
    requires AllDigits(s)
    decreases |s|
  {
    if s == [] then 0 else DigitsValue(s[..|s| - 1]) * 10 + (s[|s| - 1] as int - '0' as int)
  }

  lemma {:induction false} DecimalRoundTrip(n: nat)
    ensures DigitsValue(Decimal(n)) == n
    decreases n
  {
    if n >= 10 {
      var s := Decimal(n);
      assert s[..|s| - 1] == Decimal(n / 10);
      DecimalRoundTrip(n / 10);
    }
  }

  /** Reads back "<digits>:<two digits>" into minutes and seconds. */
  function ParseClock(s: string): Option<(nat, nat)> {
    if |s| >= 4 && s[|s| - 3] == ':' && AllDigits(s[..|s| - 3]) && AllDigits(s[|s| - 2..]) then
      Some((DigitsValue(s[..|s| - 3]), DigitsValue(s[|s| - 2..])))
    else None
  }

  /**
   * For a non-negative time, the printed text reads back as exactly the
   * minutes millis/1000/60 and the seconds (millis/1000)%60.
   */
  lemma {:induction false} FormatTimeRoundTrip(millis: Int32)
    requires millis >= 0
    ensures ParseClock(FormatTime(millis)) == Some((millis / 1000 / 60, (millis / 1000) % 60))
  {
    var (minutes, seconds) := ClockFields(millis);
    var m := FormatD(minutes);
    var sec := Format02D(seconds);
    var r := FormatTime(millis);
    assert r == m + ":" + sec;
    assert r[..|r| - 3] == m;
    assert r[|r| - 2..] == sec;
  }
}
