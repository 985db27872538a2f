/**
 * The Date tag written on save: Go's fmt.Sprintf("%d-%02d-%02d", year, month, day),
 * with year, month and day taken as parameters instead of read from the clock.
 */
module DateFormat {

  predicate IsDigit(c: char) { '0' <= c <= '9' }

  predicate AllDigits(s: string) { forall i :: 0 <= i < |s| ==> IsDigit(s[i]) }

  function DigitChar(d: nat): (c: char)
    requires d < 10
    ensures IsDigit(c) && c as int - '0' as int == d
  {
    ('0' as int + d) as char
  }

  /** The value of a string of decimal digits, most significant first. */
  function DigitsValue(s: string): nat
    requires AllDigits(s)
  {
    if s == [] then 0 else DigitsValue(s[..|s| - 1]) * 10 + (s[|s| - 1] as int - '0' as int)
  }

  /** What %d prints for a non-negative integer: digits only, no leading zero. */
  function Decimal(n: nat): (s: string)
    ensures 1 <= |s| && AllDigits(s)
    ensures s[0] == '0' ==> n == 0
    ensures (n < 10 <==> |s| == 1) && (n < 100 <==> |s| <= 2)
  {
    if n < 10 then [DigitChar(n)] else Decimal(n / 10) + [DigitChar(n % 10)]
  }

  /** What %d prints for any integer: a '-' only for a negative one, then its digits. */
  function FormatInt(i: int): (s: string)
    ensures 1 <= |s|
    ensures s[0] == '-' <==> i < 0
    ensures i < 0 ==> AllDigits(s[1..]) && DigitsValue(s[1..]) == -i
    ensures i >= 0 ==> AllDigits(s) && DigitsValue(s) == i
  {
    DecimalRoundTrip(if i < 0 then -i else i);
    if i < 0 then "-" + Decimal(-i) else Decimal(i)
  }

  /** What %02d prints for a non-negative integer: at least two digits, zero-padded. */
  function Pad2(n: nat): (s: string)
    ensures AllDigits(s)
    ensures n < 100 ==> |s| == 2
  {
    if n < 10 then "0" + Decimal(n) else Decimal(n)
  }

  /** The Date tag: the year, '-', the padded month, '-', the padded day. */
  function FormatDate(year: int, month: nat, day: nat): (s: string)
    ensures |FormatInt(year)| < |s| && s[..|FormatInt(year)|] == FormatInt(year) && s[|FormatInt(year)|] == '-'
    ensures month < 100 && day < 100 ==> |s| == |FormatInt(year)| + 6 && s[|s| - 3] == '-'
    ensures month < 100 && day < 100 ==>
      && AllDigits(s[|s| - 5..|s| - 3]) && DigitsValue(s[|s| - 5..|s| - 3]) == month
      && AllDigits(s[|s| - 2..]) && DigitsValue(s[|s| - 2..]) == day
  {
    var y, mm, dd := FormatInt(year), Pad2(month), Pad2(day);
    var s := y + "-" + mm + "-" + dd;
    assert |s| == |y| + |mm| + |dd| + 2;
    assert s[..|y|] == y && s[|y|] == '-';
    if month < 100 && day < 100 then
      Pad2Value(month);
      Pad2Value(day);
      assert s[|s| - 5..|s| - 3] == mm;
      assert s[|s| - 2..] == dd;
      s
    else s
  }

  /** Reading back what Decimal prints gives the number. */
  lemma {:induction false} DecimalRoundTrip(n: nat)
    ensures DigitsValue(Decimal(n)) == n
  {
    if n >= 10 {
      var s := Decimal(n);
      assert s[..|s| - 1] == Decimal(n / 10);
      DecimalRoundTrip(n / 10);
    }
  }

  /** Decimal is one-to-one: distinct numbers print differently. */
  lemma DecimalInjective(m: nat, n: nat)
    requires Decimal(m) == Decimal(n)
    ensures m == n
  {
    DecimalRoundTrip(m);
    DecimalRoundTrip(n);
  }

  lemma Pad2Value(n: nat)
    requires n < 100
    ensures DigitsValue(Pad2(n)) == n
  {
    DecimalRoundTrip(n);
    if n < 10 {
      var s := Pad2(n);
      assert s[..1] == "0";
      assert DigitsValue(s[..1]) == 0;
    }
  }

  /**
   * The layout of the Date tag for a non-negative year and a calendar month
   * and day: the year's digits, '-', two digits that read as the month, '-',
   * two digits that read as the day.
   */
  lemma DateLayout(year: nat, month: nat, day: nat)
    requires 1 <= month <= 12 && 1 <= day <= 31
    ensures var s := FormatDate(year, month, day);
      var n := |s|;
      && n >= 7
      && s[n - 6] == '-' && s[n - 3] == '-'
      && AllDigits(s[..n - 6]) && AllDigits(s[n - 5..n - 3]) && AllDigits(s[n - 2..])
      && DigitsValue(s[..n - 6]) == year
      && DigitsValue(s[n - 5..n - 3]) == month
      && DigitsValue(s[n - 2..]) == day
  {
  }

  /** Two dates that print the same are the same date. */
  lemma DateInjective(y1: nat, m1: nat, d1: nat, y2: nat, m2: nat, d2: nat)
    requires 1 <= m1 <= 12 && 1 <= d1 <= 31 && 1 <= m2 <= 12 && 1 <= d2 <= 31
    requires FormatDate(y1, m1, d1) == FormatDate(y2, m2, d2)
    ensures y1 == y2 && m1 == m2 && d1 == d2
  {
  }
}
