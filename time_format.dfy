/** The elapsed/total time labels of the now-playing panel: `timeString(for:)`
    turns a whole number of seconds into `%02d:%02d` of minutes and seconds.
    The conversion `Int(seconds)` from a floating-point value happens before
    this module: its input is the already truncated, non-negative count. */
module TimeFormat {

  datatype Option<T> = None | Some(value: T)

  predicate IsDigit(c: char) {
    '0' <= c <= '9'
  }

  predicate AllDigits(s: string) {
    forall i | 0 <= i < |s| :: IsDigit(s[i])
  }

  /** The decimal digit character for `d`. */
  function DigitChar(d: nat): (c: char)
    requires d < 10
    ensures IsDigit(c)
  {
    ('0' as int + d) as char
  }

  /** The value of a decimal digit character. */
  function DigitValue(c: char): (d: nat)
    requires IsDigit(c)
    ensures d < 10 && DigitChar(d) == c
  {
    c as int - '0' as int
  }

  /** `%d`: the shortest decimal rendering of `n`, most significant digit first. */
  function Decimal(n: nat): (s: string)
    ensures |s| >= 1 && AllDigits(s)
    ensures n < 10 <==> |s| == 1
    ensures 10 <= n < 100 <==> |s| == 2
    ensures s[0] == '0' <==> n == 0
    decreases n
  {
    if n < 10 then [DigitChar(n)] else Decimal(n / 10) + [DigitChar(n % 10)]
  }

  /** `%02d`: the decimal rendering of `n`, padded on the left with zeros to at
      least two characters; wider only when `n` needs three or more digits. */
  function ZeroPad2(n: nat): (s: string)
    ensures |s| >= 2 && AllDigits(s)
    ensures |s| == 2 <==> n < 100
    ensures |s| > 2 ==> s[0] != '0'
  {
    if n < 10 then ['0'] + Decimal(n) else Decimal(n)
  }

  /** `timeString(for:)` on a truncated second count: minutes, a colon, and the
      seconds within the minute, each field formatted with `%02d`. */
  function TimeString(seconds: nat): (s: string)
    ensures |s| >= 5 && s[|s| - 3] == ':'
    ensures AllDigits(s[..|s| - 3]) && AllDigits(s[|s| - 2..])
    ensures |s| == 5 <==> seconds < 6000
    ensures seconds >= 6000 ==> s[0] != '0'
  {
    ZeroPad2(seconds / 60) + ":" + ZeroPad2(seconds % 60)
  }

  /** The number a string of decimal digits denotes (leading zeros allowed). */
  function ParseDecimal(s: string): nat
    requires AllDigits(s)
  {
    if s == [] then 0 else ParseDecimal(s[..|s| - 1]) * 10 + DigitValue(s[|s| - 1])
  }

  /** Reads a label of the shape `M...M:SS` back into a count of seconds:
      at least two minute digits, a colon, exactly two second digits below 60. */
  function ParseTime(s: string): (r: Option<nat>)
    ensures r.Some? ==> |s| >= 5 && s[|s| - 3] == ':'
  {
    if |s| >= 5 && s[|s| - 3] == ':' && AllDigits(s[..|s| - 3]) && AllDigits(s[|s| - 2..])
       && ParseDecimal(s[|s| - 2..]) < 60
    then Some(ParseDecimal(s[..|s| - 3]) * 60 + ParseDecimal(s[|s| - 2..]))
    else None
  }

  /** Reading back `%d` gives the number that was printed. */
  lemma {:induction false} ParseDecimalOfDecimal(n: nat)
    ensures ParseDecimal(Decimal(n)) == n
    decreases n
  {
    if n >= 10 {
      var s := Decimal(n);
      assert s[..|s| - 1] == Decimal(n / 10);
      ParseDecimalOfDecimal(n / 10);
    }
  }

  /** A leading zero does not change the number a digit string denotes. */
  lemma {:induction false} ParseDecimalLeadingZero(s: string)
    requires AllDigits(s)
    ensures AllDigits(['0'] + s) && ParseDecimal(['0'] + s) == ParseDecimal(s)
    decreases |s|
  {
    if s != [] {
      assert (['0'] + s)[..|s|] == ['0'] + s[..|s| - 1];
      ParseDecimalLeadingZero(s[..|s| - 1]);
    }
  }

  /** Reading back `%02d` gives the number that was printed. */
  lemma ParseDecimalOfZeroPad2(n: nat)
    ensures ParseDecimal(ZeroPad2(n)) == n
  {
    ParseDecimalOfDecimal(n);
    if n < 10 {
      ParseDecimalLeadingZero(Decimal(n));
    }
  }

  /** The minutes field of a label denotes `seconds / 60` and the two-digit
      seconds field denotes `seconds % 60`, which is below 60; together the
      two fields give back the count: minutes * 60 + seconds. */
  lemma TimeStringFields(seconds: nat)
    ensures var s := TimeString(seconds);
      ParseDecimal(s[..|s| - 3]) == seconds / 60 &&
      ParseDecimal(s[|s| - 2..]) == seconds % 60 < 60 &&
      ParseDecimal(s[..|s| - 3]) * 60 + ParseDecimal(s[|s| - 2..]) == seconds
  {
    var m, ss := ZeroPad2(seconds / 60), ZeroPad2(seconds % 60);
    var s := TimeString(seconds);
    assert |ss| == 2;
    assert s[..|s| - 3] == m;
    assert s[|s| - 2..] == ss;
    ParseDecimalOfZeroPad2(seconds / 60);
    ParseDecimalOfZeroPad2(seconds % 60);
  }

  /** Every label reads back as the second count it was made from. */
  lemma TimeStringRoundTrip(seconds: nat)
    ensures ParseTime(TimeString(seconds)) == Some(seconds)
  {
    TimeStringFields(seconds);
  }

  /** Different second counts never share a label. */
  lemma TimeStringInjective(a: nat, b: nat)
    requires TimeString(a) == TimeString(b)
    ensures a == b
  {
    TimeStringRoundTrip(a);
    TimeStringRoundTrip(b);
  }

  /** The labels for no time at all, for 75 seconds, for the last second of
      the first hour and for a hundred minutes. */
  lemma TimeStringExamples()
    ensures TimeString(0) == "00:00"
    ensures TimeString(75) == "01:15"
    ensures TimeString(3599) == "59:59"
    ensures TimeString(6000) == "100:00"
  {
    assert ZeroPad2(0) == "00";
    assert ZeroPad2(1) == "01";
    assert ZeroPad2(15) == "15" by { assert Decimal(1) == "1"; }
    assert ZeroPad2(59) == "59" by { assert Decimal(5) == "5"; }
    assert ZeroPad2(100) == "100" by { assert Decimal(10) == "10" by { assert Decimal(1) == "1"; } }
    assert 75 / 60 == 1 && 75 % 60 == 15;
    assert 3599 / 60 == 59 && 3599 % 60 == 59;
    assert 6000 / 60 == 100 && 6000 % 60 == 0;
  }
}
