/**
 * `date.strftime("%d/%m/%Y")`: the day and month as two zero-padded digits,
 * the year as four, separated by slashes; and the reading back of such a
 * string, which shows that the text determines the date.
 */
module DateFormat {
  import opened Wrappers
  import opened Dates

  function Pow10(n: nat): (r: nat)
    ensures r >= 1
  {
    if n == 0 then 1 else 10 * Pow10(n - 1)
  }

  predicate IsDigit(c: char) {
    '0' <= c <= '9'
  }

  predicate AllDigits(s: string) {
    forall i :: 0 <= i < |s| ==> IsDigit(s[i])
  }

  function DigitChar(k: nat): (c: char)
    requires k < 10
    ensures IsDigit(c)
  {
    (48 + k) as char
  }

  function DigitValue(c: char): (k: nat)
    requires IsDigit(c)
    ensures k < 10
  {
    c as int - 48
  }

  /** `n` written in decimal with exactly `width` digits, padded on the left with '0'. */
  function Digits(n: nat, width: nat): (s: string)
    requires n < Pow10(width)
    ensures |s| == width && AllDigits(s)
  {
    if width == 0 then [] else Digits(n / 10, width - 1) + [DigitChar(n % 10)]
  }

  /** The number a string of decimal digits denotes. */
  function ValueOf(s: string): nat
    requires AllDigits(s)
  {
    if s == [] then 0 else ValueOf(s[..|s| - 1]) * 10 + DigitValue(s[|s| - 1])
  }

  lemma {:induction false} DigitsRoundTrip(n: nat, width: nat)
    requires n < Pow10(width)
    ensures ValueOf(Digits(n, width)) == n
  {
    if width > 0 {
      var s := Digits(n, width);
      DigitsRoundTrip(n / 10, width - 1);
      assert s[..|s| - 1] == Digits(n / 10, width - 1);
    }
  }

  /** `strftime("%d/%m/%Y")`. */
  function FormatDate(d: Date): (s: string)
    ensures |s| == 10 && s[2] == '/' && s[5] == '/'
    ensures AllDigits(s[..2]) && AllDigits(s[3..5]) && AllDigits(s[6..])
  {
    var dd := Digits(d.day, 2);
    var mm := Digits(d.month, 2);
    var yyyy := Digits(d.year, 4);
    var s := dd + "/" + mm + "/" + yyyy;
    assert s[..2] == dd && s[3..5] == mm && s[6..] == yyyy;
    s
  }

  /** Reads a `DD/MM/YYYY` string back; `None` for any other shape. */
  function ParseDate(s: string): Option<CalendarDate> {
    if |s| == 10 && s[2] == '/' && s[5] == '/'
       && AllDigits(s[..2]) && AllDigits(s[3..5]) && AllDigits(s[6..])
    then Some(CalendarDate(ValueOf(s[6..]), ValueOf(s[3..5]), ValueOf(s[..2])))
    else None
  }

  /** The formatted date reads back as the same date: distinct dates format differently. */
  lemma ParseFormatRoundTrip(d: Date)
    ensures ParseDate(FormatDate(d)) == Some(d)
  {
    var s := FormatDate(d);
    assert s[..2] == Digits(d.day, 2);
    assert s[3..5] == Digits(d.month, 2);
    assert s[6..] == Digits(d.year, 4);
    DigitsRoundTrip(d.day, 2);
    DigitsRoundTrip(d.month, 2);
    DigitsRoundTrip(d.year, 4);
  }

  lemma FormatInjective(a: Date, b: Date)
    requires FormatDate(a) == FormatDate(b)
    ensures a == b
  {
    ParseFormatRoundTrip(a);
    ParseFormatRoundTrip(b);
  }

  lemma DigitsExamples()
    ensures Digits(10, 2) == "10" && Digits(1, 2) == "01" && Digits(2024, 4) == "2024"
  {
    assert Digits(10, 2) == Digits(1, 1) + "0";
    assert Digits(1, 2) == Digits(0, 1) + "1";
    assert Digits(20, 2) == Digits(2, 1) + "0" == "20";
    assert Digits(202, 3) == Digits(20, 2) + "2" == "202";
    assert Digits(2024, 4) == Digits(202, 3) + "4";
  }

  /** 10 January 2024 formats as "10/01/2024". */
  lemma FormatExample()
    ensures FormatDate(CalendarDate(2024, 1, 10)) == "10/01/2024"
  {
    DigitsExamples();
    assert FormatDate(CalendarDate(2024, 1, 10)) == "10" + "/" + "01" + "/" + "2024";
  }
}
