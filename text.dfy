/** Decimal text of integers as JavaScript template literals print them
    (`${n}`), and the `\d+` / `parseInt` reading that turns such text back
    into a number (src/viz.js:370-373). */
module Text {
  import opened Wrappers

  predicate IsDigit(c: char)
  {
    '0' <= c <= '9'
  }

  predicate AllDigits(s: string)
  {
    forall i :: 0 <= i < |s| ==> IsDigit(s[i])
  }

  function Digit(d: nat): (c: char)
    requires d < 10
    ensures IsDigit(c) && (c as int) - ('0' as int) == d
  {
    ['0', '1', '2', '3', '4', '5', '6', '7', '8', '9'][d]
  }

  /** `${n}` for a non-negative integer: its decimal digits, no leading zero. */
  function NatToString(n: nat): (s: string)
    ensures |s| > 0 && AllDigits(s)
    ensures |s| > 1 ==> s[0] != '0'
  {
    if n < 10 then [Digit(n)] else NatToString(n / 10) + [Digit(n % 10)]
  }

  /** `${i}` for any integer. */
  function IntToString(i: int): (s: string)
    ensures |s| > 0 && (IsDigit(s[0]) || s[0] == '-')
    ensures i >= 0 <==> AllDigits(s)
  {
    if i < 0 then "-" + NatToString(-i) else NatToString(i)
  }

  /** The value of a string of decimal digits. */
  function ParseDigits(s: string): (n: nat)
    requires |s| > 0 && AllDigits(s)
  {
    var d := (s[|s| - 1] as int) - ('0' as int);
    if |s| == 1 then d else 10 * ParseDigits(s[..|s| - 1]) + d
  }

  /** An optional leading minus sign followed by decimal digits. */
  function ParseInt(s: string): (r: Option<int>)
  {
    if |s| > 0 && AllDigits(s) then Some(ParseDigits(s))
    else if |s| > 1 && s[0] == '-' && AllDigits(s[1..]) then
      var n: int := ParseDigits(s[1..]);
      Some(-n)
    else None
  }

  lemma {:induction false} ParseNatToString(n: nat)
    ensures ParseDigits(NatToString(n)) == n
  {
    if n >= 10 {
      var s := NatToString(n);
      assert s[..|s| - 1] == NatToString(n / 10);
      ParseNatToString(n / 10);
    }
  }

  /** Printing an integer and reading it back gives the integer. */
  lemma ParseIntToString(i: int)
    ensures ParseInt(IntToString(i)) == Some(i)
  {
    var s := IntToString(i);
    if i < 0 {
      var d := NatToString(-i);
      assert s == "-" + d;
      ParseNatToString(-i);
      assert s[1..] == d;
      assert !IsDigit(s[0]);
      assert !AllDigits(s);
      assert |s| > 1 && s[0] == '-' && AllDigits(s[1..]);
    } else {
      assert s == NatToString(i);
      ParseNatToString(i);
    }
  }

  lemma IntToStringInjective(i: int, j: int)
    requires IntToString(i) == IntToString(j)
    ensures i == j
  {
    ParseIntToString(i);
    ParseIntToString(j);
  }
}
