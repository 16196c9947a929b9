/** minutos_a_hora of main.py: a simulation minute as an "HH:MM" wall-clock
    string, the day starting at 06:00. */
module Clock {

  function DigitChar(d: int): (c: char)
    requires 0 <= d < 10
    ensures '0' <= c <= '9' && c as int - '0' as int == d
  {
    ('0' as int + d) as char
  }

  /** Decimal digits of a natural number, most significant first. */
  function Digits(n: nat): (s: string)
    ensures |s| >= 1
    ensures forall i :: 0 <= i < |s| ==> '0' <= s[i] <= '9'
    ensures n < 10 <==> |s| == 1
  {
    if n < 10 then [DigitChar(n)] else Digits(n / 10) + [DigitChar(n % 10)]
  }

  /** Python's `format(n, "02d")`: zero-padded to width 2; a negative number
      is its sign followed by its digits, which is already two wide. */
  function Pad2(n: int): string
  {
    if n < 0 then "-" + Digits(-n)
    else if n < 10 then "0" + Digits(n)
    else Digits(n)
  }

  /** hora = 6 + minuto // 60 and minutos = minuto % 60. For the divisor 60
      Python's floor division and Dafny's Euclidean division agree. */
  function MinutesToClock(m: int): string
  {
    Pad2(6 + m / 60) + ":" + Pad2(m % 60)
  }

  /** Reads a string of decimal digits back as a number. */
  function DigitsValue(s: string): int
  {
    if s == [] then 0
    else DigitsValue(s[..|s| - 1]) * 10 + (s[|s| - 1] as int - '0' as int)
  }

  lemma {:induction false} DigitsRoundTrip(n: nat)
    ensures DigitsValue(Digits(n)) == n
  {
    if n >= 10 {
      DigitsRoundTrip(n / 10);
      var s := Digits(n);
      assert s[..|s| - 1] == Digits(n / 10);
    }
  }

  lemma {:induction false} Pad2RoundTrip(n: nat)
    ensures |Pad2(n)| >= 2 && DigitsValue(Pad2(n)) == n
    ensures n < 100 ==> |Pad2(n)| == 2
  {
    DigitsRoundTrip(n);
    if n < 10 {
      var s := Pad2(n);
      assert s[..1] == "0";
      assert DigitsValue("0") == 0;
    } else if n < 100 {
      assert Digits(n) == Digits(n / 10) + [DigitChar(n % 10)];
    }
  }

  /** For every non-negative minute the clock string is an hour field, a
      colon and a two-digit minute field; reading the fields back gives
      6 + m // 60 and m % 60, and before minute 5640 (hour 100) the string
      is exactly "HH:MM". */
  lemma {:induction false} ClockRoundTrip(m: int)
    requires m >= 0
    ensures var s := MinutesToClock(m);
      |s| >= 5 && s[|s| - 3] == ':'
      && DigitsValue(s[..|s| - 3]) == 6 + m / 60
      && DigitsValue(s[|s| - 2..]) == m % 60
    ensures m < 5640 ==> |MinutesToClock(m)| == 5
  {
    var h, mm := 6 + m / 60, m % 60;
    Pad2RoundTrip(h);
    Pad2RoundTrip(mm);
    var s := MinutesToClock(m);
    assert s == Pad2(h) + ":" + Pad2(mm);
    assert s[..|s| - 3] == Pad2(h);
    assert s[|s| - 2..] == Pad2(mm);
  }
}
