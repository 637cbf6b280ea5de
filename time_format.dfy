/**
  The "hh:mm:ss" rendering of a playback position shown next to the seek
  bar (ObjectTracker.jsx `formatTime` and its inner `zeroPrefix`), on whole
  seconds. `ParseClock` reads such a rendering back; the round trip is what
  shows that every position has its own rendering.
*/
module TimeFormat {
  import opened Wrappers

  predicate IsDigit(c: char) {
    '0' <= c <= '9'
  }

  predicate AllDigits(s: string) {
    forall i :: 0 <= i < |s| ==> IsDigit(s[i])
  }

  /** The character of a decimal digit. */
  function DigitChar(d: nat): (c: char)
    requires d < 10
    ensures IsDigit(c) && c as int - '0' as int == d
  {
    (d + '0' as int) as char
  }

  /** The value of a string of decimal digits, most significant digit first. */
  function DecimalValue(s: string): nat
    requires AllDigits(s)
  {
    if s == [] then 0
    else 10 * DecimalValue(s[..|s| - 1]) + (s[|s| - 1] as int - '0' as int)
  }

  /**
    How JavaScript renders a non-negative integer in a template literal:
    its decimal digits, with no leading zero except for 0 itself.
  */
  function Decimal(n: nat): (r: string)
    ensures AllDigits(r) && DecimalValue(r) == n
    ensures |r| >= 1
    ensures |r| == 1 <==> n < 10
    ensures |r| == 2 <==> 10 <= n < 100
    ensures r[0] == '0' <==> n == 0
  {
    if n < 10 then [DigitChar(n)]
    else
      var r := Decimal(n / 10) + [DigitChar(n % 10)];
      assert r[..|r| - 1] == Decimal(n / 10);
      r
  }

  /** A leading zero does not change the value of a digit string. */
  lemma {:induction false} LeadingZero(s: string)
    requires AllDigits(s)
    ensures AllDigits("0" + s) && DecimalValue("0" + s) == DecimalValue(s)
  {
    if s != [] {
      var t := "0" + s;
      assert t[..|t| - 1] == "0" + s[..|s| - 1];
      LeadingZero(s[..|s| - 1]);
    }
  }

  /**
    `zeroPrefix`: a number equal to itself modulo 10 (that is, below 10)
    gets a "0" in front, so every field has at least two digits and a
    field below 100 has exactly two.
  */
  function ZeroPrefix(num: nat): (r: string)
    ensures AllDigits(r) && DecimalValue(r) == num
    ensures |r| >= 2
    ensures num < 100 ==> |r| == 2
    ensures r[0] == '0' <==> num < 10
  {
    if num % 10 == num then
      LeadingZero(Decimal(num));
      "0" + Decimal(num)
    else Decimal(num)
  }

  /** A position split into hours, minutes and seconds. */
  datatype Clock = Clock(hr: nat, min: nat, sec: nat)

  function Seconds(c: Clock): nat {
    c.hr * 3600 + c.min * 60 + c.sec
  }

  /** The fields `formatTime` computes: t div 3600, (t mod 3600) div 60, t mod 60. */
  function Split(time: nat): (c: Clock)
    ensures c.min < 60 && c.sec < 60
    ensures Seconds(c) == time
  {
    var rest := time % 3600;
    assert time == 3600 * (time / 3600) + rest;
    assert rest == 60 * (rest / 60) + rest % 60;
    assert rest % 60 == time % 60 by {
      assert time == 60 * (60 * (time / 3600) + rest / 60) + rest % 60;
    }
    Clock(time / 3600, rest / 60, time % 60)
  }

  /** A clock with minutes and seconds below 60 is the split of its own number of seconds. */
  lemma SplitOfSeconds(c: Clock)
    requires c.min < 60 && c.sec < 60
    ensures Split(Seconds(c)) == c
  {
    var t := Seconds(c);
    var rest := c.min * 60 + c.sec;
    assert 0 <= rest < 3600;
    assert t / 3600 == c.hr && t % 3600 == rest;
    assert rest / 60 == c.min && rest % 60 == c.sec;
  }

  /** `formatTime(time)` for a whole number of seconds. */
  function FormatTime(time: nat): (s: string)
    ensures |s| >= 8
    ensures time < 100 * 3600 <==> |s| == 8
  {
    var hr := ZeroPrefix(time / 3600);
    var min := ZeroPrefix((time % 3600) / 60);
    var sec := ZeroPrefix(time % 60);
    hr + ":" + min + ":" + sec
  }

  /** Reads "h...h:mm:ss" back: the last two fields have exactly two digits. */
  function ParseClock(s: string): (c: Option<Clock>)
    ensures c.Some? ==> |s| >= 8 && s[|s| - 6] == ':' && s[|s| - 3] == ':'
  {
    if |s| < 8 || s[|s| - 6] != ':' || s[|s| - 3] != ':' then None
    else
      var hr, min, sec := s[..|s| - 6], s[|s| - 5..|s| - 3], s[|s| - 2..];
      if AllDigits(hr) && AllDigits(min) && AllDigits(sec)
      then Some(Clock(DecimalValue(hr), DecimalValue(min), DecimalValue(sec)))
      else None
  }

  lemma ParseFields(hr: string, min: string, sec: string)
    requires AllDigits(hr) && AllDigits(min) && AllDigits(sec)
    requires |hr| >= 2 && |min| == 2 && |sec| == 2
    ensures ParseClock(hr + ":" + min + ":" + sec)
         == Some(Clock(DecimalValue(hr), DecimalValue(min), DecimalValue(sec)))
  {
    var s := hr + ":" + min + ":" + sec;
    var n := |hr|;
    assert |s| - 6 == n && |s| - 5 == n + 1 && |s| - 3 == n + 3 && |s| - 2 == n + 4;
    assert s[n] == ':' && s[n + 3] == ':';
    assert s[..n] == hr;
    assert s[n + 1..n + 3] == min;
    assert s[n + 4..] == sec;
    assert ParseClock(s) == Some(Clock(DecimalValue(hr), DecimalValue(min), DecimalValue(sec)));
  }

  /** Parsing the rendering of a position gives back its hours, minutes and seconds. */
  lemma ParseFormatTime(time: nat)
    ensures ParseClock(FormatTime(time)) == Some(Split(time))
  {
    var c := Split(time);
    ParseFields(ZeroPrefix(c.hr), ZeroPrefix(c.min), ZeroPrefix(c.sec));
  }

  /** The rendering of a position determines it: different positions render differently. */
  lemma FormatTimeInjective(t1: nat, t2: nat)
    ensures FormatTime(t1) == FormatTime(t2) ==> t1 == t2
  {
    ParseFormatTime(t1);
    ParseFormatTime(t2);
  }

  /** Every clock reading with minutes and seconds below 60 is the rendering of some position. */
  lemma FormatTimeOfClock(c: Clock)
    requires c.min < 60 && c.sec < 60
    ensures ParseClock(FormatTime(Seconds(c))) == Some(c)
  {
    ParseFormatTime(Seconds(c));
    SplitOfSeconds(c);
  }

  /** One hour, two minutes and five seconds render as "01:02:05". */
  lemma FormatTimeExample()
    ensures FormatTime(3725) == "01:02:05"
  {
    assert Split(3725) == Clock(1, 2, 5);
    assert ZeroPrefix(1) == "01" && ZeroPrefix(2) == "02" && ZeroPrefix(5) == "05";
  }
}
