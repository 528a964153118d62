/** Strings as the wire uses them: searching for a separator and decimal numbers. */
module Text {
  datatype Option<+T> = None | Some(value: T) {
    function GetOr(default: T): T {
      if None? then default else value
    }
  }

  /** The first position of c in s, or |s|. */
  function IndexOf(s: string, c: char): (i: nat)
    ensures i <= |s|
    ensures forall k :: 0 <= k < i ==> s[k] != c
    ensures i < |s| ==> s[i] == c
  {
    if s == "" || s[0] == c then 0 else 1 + IndexOf(s[1..], c)
  }

  /** One past the last position of c in s, or 0. */
  function AfterLast(s: string, c: char): (i: nat)
    ensures i <= |s|
    ensures forall k :: i <= k < |s| ==> s[k] != c
    ensures i > 0 ==> s[i - 1] == c
  {
    if s == "" then 0 else if s[|s| - 1] == c then |s| else AfterLast(s[..|s| - 1], c)
  }

  predicate IsDigit(c: char) {
    '0' <= c <= '9'
  }

  /** Python's `str.isdigit`, on ASCII text. */
  predicate AllDigits(s: string) {
    s != "" && forall i :: 0 <= i < |s| ==> IsDigit(s[i])
  }

  function DigitChar(d: nat): (c: char)
    requires d < 10
    ensures IsDigit(c) && DigitValue(c) == d
  {
    (d + '0' as int) as char
  }

  function DigitValue(c: char): (d: nat)
    requires IsDigit(c)
    ensures d < 10
  {
    c as int - '0' as int
  }

  function Decimal(n: nat): (s: string)
    ensures AllDigits(s)
  {
    if n < 10 then [DigitChar(n)] else Decimal(n / 10) + [DigitChar(n % 10)]
  }

  function ParseDecimal(s: string): nat
    requires AllDigits(s)
  {
    if |s| == 1 then DigitValue(s[0])
    else 10 * ParseDecimal(s[..|s| - 1]) + DigitValue(s[|s| - 1])
  }

  lemma {:induction false} DecimalRoundTrip(n: nat)
    ensures ParseDecimal(Decimal(n)) == n
  {
    if n >= 10 {
      DecimalRoundTrip(n / 10);
      var s := Decimal(n);
      assert s[..|s| - 1] == Decimal(n / 10);
    }
  }

  /** Exactly the numerals without a leading zero are printed back as they were read. */
  lemma {:induction false} DecimalCanonical(s: string)
    requires AllDigits(s)
    ensures Decimal(ParseDecimal(s)) == s <==> |s| == 1 || s[0] != '0'
    ensures |s| > 1 && s[0] != '0' ==> ParseDecimal(s) >= 10
    ensures |s| == 1 ==> (ParseDecimal(s) == 0 <==> s == "0")
    ensures Decimal(ParseDecimal(s))[0] == '0' ==> ParseDecimal(s) == 0
  {
    if |s| > 1 {
      var front, d := s[..|s| - 1], DigitValue(s[|s| - 1]);
      DecimalCanonical(front);
      var n := ParseDecimal(front);
      assert s == front + [s[|s| - 1]];
      assert ParseDecimal(s) / 10 == n && ParseDecimal(s) % 10 == d;
      if n == 0 {
        assert Decimal(ParseDecimal(s)) == [DigitChar(d)];
        assert s[0] == front[0];
      } else {
        assert Decimal(10 * n + d) == Decimal(n) + [DigitChar(d)];
        assert front == s[..|s| - 1] && Decimal(n) == Decimal(10 * n + d)[..|Decimal(n)|];
      }
    }
  }
}
