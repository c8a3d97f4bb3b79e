/** The countdown label shown while writing: whole minutes, a colon, and the
    remaining seconds padded to two digits (`5:00`, `4:07`, `0:59`). */
module Clock {
  import opened NoteTypes

  predicate IsDigit(c: char)
  {
    '0' <= c <= '9'
  }

  predicate AllDigits(s: string)
  {
    forall i :: 0 <= i < |s| ==> IsDigit(s[i])
  }

  function DigitChar(d: nat): (c: char)
    requires d < 10
    ensures IsDigit(c) && c as int - '0' as int == d
  {
    (d + '0' as int) as char
  }

  /** The value of a string of decimal digits, most significant first
      (meaningful when every character is a digit). */
  function ValueOf(s: string): int
  {
    if s == [] then 0 else ValueOf(s[..|s| - 1]) * 10 + (s[|s| - 1] as int - '0' as int)
  }

  /** `toString()` of a non-negative integer; `DecimalDigits` states its shape. */
  function Decimal(n: nat): (s: string)
    ensures |s| >= 1
  {
    if n < 10 then [DigitChar(n)] else Decimal(n / 10) + [DigitChar(n % 10)]
  }

  /** The decimal form of `n` is all digits, has no leading zero, and is one
      character long exactly when `n` is below ten. */
  lemma {:induction false} DecimalDigits(n: nat)
    ensures AllDigits(Decimal(n))
    ensures |Decimal(n)| > 1 ==> Decimal(n)[0] != '0'
    ensures n < 10 <==> |Decimal(n)| == 1
  {
    if n >= 10 {
      DecimalDigits(n / 10);
      var s := Decimal(n);
      assert s[..|s| - 1] == Decimal(n / 10);
    }
  }

  /** `padStart(2, '0')`: zeros in front until the string is two long. */
  function PadTwo(s: string): (r: string)
    ensures |r| == if |s| < 2 then 2 else |s|
    ensures r[|r| - |s|..] == s
    ensures forall i :: 0 <= i < |r| - |s| ==> r[i] == '0'
  {
    if |s| >= 2 then s else if |s| == 1 then ['0'] + s else "00"
  }

  /** Minutes, a colon, and the seconds padded to two digits. */
  function Label(minutes: nat, seconds: nat): string
  {
    Decimal(minutes) + ":" + PadTwo(Decimal(seconds))
  }

  /** The label for `timeLeft` seconds: digits, a colon third from the end,
      and two digits of seconds. */
  function TimeStr(timeLeft: nat): (s: string)
    ensures |s| >= 4 && s[|s| - 3] == ':'
    ensures AllDigits(s[..|s| - 3]) && AllDigits(s[|s| - 2..])
  {
    LabelFields(timeLeft / 60, timeLeft % 60);
    Label(timeLeft / 60, timeLeft % 60)
  }

  /** Reads a label back: minutes, a colon, two digits of seconds below 60. */
  function ParseTimeStr(s: string): (r: Option<int>)
    ensures r.Some? ==> |s| >= 4 && s[|s| - 3] == ':'
  {
    if |s| >= 4 && s[|s| - 3] == ':' && AllDigits(s[..|s| - 3]) && AllDigits(s[|s| - 2..])
       && ValueOf(s[|s| - 2..]) < 60
    then Some(ValueOf(s[..|s| - 3]) * 60 + ValueOf(s[|s| - 2..]))
    else None
  }

  /** Reading the digits of `n` gives `n` back. */
  lemma {:induction false} ValueOfDecimal(n: nat)
    ensures ValueOf(Decimal(n)) == n
  {
    if n >= 10 {
      ValueOfDecimal(n / 10);
      var s := Decimal(n);
      assert s[..|s| - 1] == Decimal(n / 10);
    }
  }

  /** A number below a hundred has at most two digits. */
  lemma DecimalBelowHundred(n: nat)
    requires n < 100
    ensures |Decimal(n)| <= 2
  {
    if n >= 10 {
      assert n / 10 < 10;
    }
  }

  /** Leading zeros do not change the value of a digit string. */
  lemma {:induction false} ValueOfLeadingZero(s: string)
    ensures ValueOf(['0'] + s) == ValueOf(s)
  {
    if s != [] {
      var t := ['0'] + s;
      assert t[..|t| - 1] == ['0'] + s[..|s| - 1];
      ValueOfLeadingZero(s[..|s| - 1]);
    }
  }

  lemma ValueOfPadTwo(s: string)
    ensures ValueOf(PadTwo(s)) == ValueOf(s)
  {
    if |s| == 1 {
      ValueOfLeadingZero(s);
    } else if |s| == 0 {
      assert ValueOf("0") == 0;
    }
  }

  lemma PadTwoDigits(s: string)
    requires AllDigits(s)
    ensures AllDigits(PadTwo(s))
  {
  }

  /** A label splits into the minutes digits, a colon third from the end,
      and exactly two digits of seconds. */
  lemma LabelParts(minutes: nat, seconds: nat)
    requires seconds < 60
    ensures var s := Label(minutes, seconds);
      |s| >= 4 && s[|s| - 3] == ':' &&
      s[..|s| - 3] == Decimal(minutes) && s[|s| - 2..] == PadTwo(Decimal(seconds))
  {
    DecimalBelowHundred(seconds);
    var m, sec := Decimal(minutes), PadTwo(Decimal(seconds));
    assert |sec| == 2;
    var s := m + ":" + sec;
    assert s[..|s| - 3] == m;
    assert s[|s| - 2..] == sec;
  }

  /** The fields of a label hold the numbers it was made from. */
  lemma LabelFields(minutes: nat, seconds: nat)
    requires seconds < 60
    ensures var s := Label(minutes, seconds);
      |s| >= 4 && s[|s| - 3] == ':' &&
      AllDigits(s[..|s| - 3]) && AllDigits(s[|s| - 2..]) &&
      ValueOf(s[..|s| - 3]) == minutes && ValueOf(s[|s| - 2..]) == seconds
  {
    LabelParts(minutes, seconds);
    DecimalDigits(minutes);
    DecimalDigits(seconds);
    PadTwoDigits(Decimal(seconds));
    ValueOfDecimal(minutes);
    ValueOfDecimal(seconds);
    ValueOfPadTwo(Decimal(seconds));
  }

  /** A label reads back to minutes times sixty plus seconds. */
  lemma LabelReadsBack(minutes: nat, seconds: nat)
    requires seconds < 60
    ensures ParseTimeStr(Label(minutes, seconds)) == Some(minutes * 60 + seconds)
  {
    LabelFields(minutes, seconds);
  }

  /** The seconds field is exactly two digits, holds `timeLeft % 60` (so
      never more than 59), and the minutes field times sixty plus the seconds
      field is `timeLeft`. */
  lemma TimeStrFields(timeLeft: nat)
    ensures var s := TimeStr(timeLeft);
      |s| >= 4 && s[|s| - 3] == ':' &&
      AllDigits(s[..|s| - 3]) && AllDigits(s[|s| - 2..]) &&
      ValueOf(s[..|s| - 3]) == timeLeft / 60 &&
      ValueOf(s[|s| - 2..]) == timeLeft % 60 < 60 &&
      ValueOf(s[..|s| - 3]) * 60 + ValueOf(s[|s| - 2..]) == timeLeft
  {
    var minutes, seconds := timeLeft / 60, timeLeft % 60;
    LabelFields(minutes, seconds);
    assert minutes * 60 + seconds == timeLeft;
  }

  /** The label reads back to the number of seconds it was made from. */
  lemma TimeStrRoundTrip(timeLeft: nat)
    ensures ParseTimeStr(TimeStr(timeLeft)) == Some(timeLeft)
  {
    var minutes, seconds := timeLeft / 60, timeLeft % 60;
    LabelReadsBack(minutes, seconds);
    assert minutes * 60 + seconds == timeLeft;
  }

  /** Different remaining times never show the same label. */
  lemma TimeStrInjective(a: nat, b: nat)
    requires TimeStr(a) == TimeStr(b)
    ensures a == b
  {
    TimeStrRoundTrip(a);
    TimeStrRoundTrip(b);
  }
}
