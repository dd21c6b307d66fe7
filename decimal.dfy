/**
 * Decimal text of an integer, as Go's `%d` verb writes it: an optional
 * `-` followed by the digits of the magnitude, without leading zeros.
 * `Parse` is the partner the round trip is stated against.
 */
module Decimal {
  import opened Wrappers

  type Digit = d: int | 0 <= d < 10

  function DigitChar(d: Digit): (c: char)
    ensures '0' <= c <= '9'
  {
    (('0' as int) + d) as char
  }

  predicate IsDigitChar(c: char)
  {
    '0' <= c <= '9'
  }

  /** The digits of a natural number, most significant first. */
  function Digits(n: nat): (s: string)
    ensures s != []
    ensures forall i :: 0 <= i < |s| ==> IsDigitChar(s[i])
    ensures n > 0 ==> s[0] != '0'
    decreases n
  {
    if n < 10 then [DigitChar(n)] else Digits(n / 10) + [DigitChar(n % 10)]
  }

  /** `fmt.Sprintf("%d", n)`. */
  function Format(n: int): (s: string)
    ensures s != [] && s[0] != '+'
    ensures n < 0 <==> s[0] == '-'
  {
    if n < 0 then "-" + Digits(-n) else Digits(n)
  }

  /** The value of a non-empty string of decimal digits. */
  function ParseDigits(s: string): (n: nat)
    requires s != []
    requires forall i :: 0 <= i < |s| ==> IsDigitChar(s[i])
    decreases |s|
  {
    assert IsDigitChar(s[|s| - 1]);
    var d := s[|s| - 1] as int - '0' as int;
    if |s| == 1 then d else ParseDigits(s[..|s| - 1]) * 10 + d
  }

  /** Reads back an optionally negative decimal integer. */
  function Parse(s: string): (r: Option<int>)
  {
    if s != [] && s[0] == '-' then
      var t := s[1..];
      if t != [] && forall i :: 0 <= i < |t| ==> IsDigitChar(t[i]) then Some(-(ParseDigits(t) as int)) else None
    else if s != [] && forall i :: 0 <= i < |s| ==> IsDigitChar(s[i]) then Some(ParseDigits(s))
    else None
  }

  lemma {:induction false} ParseDigitsOfDigits(n: nat)
    ensures ParseDigits(Digits(n)) == n
    decreases n
  {
    if n >= 10 {
      var s := Digits(n);
      assert s[..|s| - 1] == Digits(n / 10);
      ParseDigitsOfDigits(n / 10);
    }
  }

  /** Round trip: the text `%d` writes reads back as the same integer. */
  lemma ParseFormat(n: int)
    ensures Parse(Format(n)) == Some(n)
  {
    if n < 0 {
      assert Format(n)[1..] == Digits(-n);
      ParseDigitsOfDigits(-n);
    } else {
      ParseDigitsOfDigits(n);
    }
  }
}
