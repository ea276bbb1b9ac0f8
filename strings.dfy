/** The string operations the dashboard relies on: Python's `str(int)`,
    `float(str)` for decimal literals, `str.join` and `str.replace`. */
module Strings {
  import opened ProcessData

  predicate IsDigit(c: char) {
    '0' <= c <= '9'
  }

  predicate AllDigits(s: string) {
    forall i :: 0 <= i < |s| ==> IsDigit(s[i])
  }

  function DigitChar(d: nat): (c: char)
    requires d < 10
    ensures IsDigit(c)
  {
    ('0' as int + d) as char
  }

  function DigitOf(c: char): (d: nat)
    requires IsDigit(c)
    ensures d < 10 && DigitChar(d) == c
  {
    c as int - '0' as int
  }

  /** `str(n)` for a non-negative integer: its decimal digits, most
      significant first, without leading zeros. */
  function NatToString(n: nat): (s: string)
    ensures |s| > 0 && AllDigits(s)
    ensures n > 0 ==> s[0] != '0'
    decreases n
  {
    if n < 10 then [DigitChar(n)] else NatToString(n / 10) + [DigitChar(n % 10)]
  }

  /** `str(i)` for any integer. */
  function IntToString(i: int): (s: string)
    ensures |s| > 0
    ensures i < 0 <==> s[0] == '-'
    ensures i >= 0 ==> AllDigits(s)
  {
    if i < 0 then "-" + NatToString(-i) else NatToString(i)
  }

  /** The number a string of decimal digits denotes. */
  function DigitsValue(s: string): nat
    requires AllDigits(s)
  {
    if s == [] then 0 else DigitsValue(s[..|s| - 1]) * 10 + DigitOf(s[|s| - 1])
  }

  function Pow10(n: nat): (p: nat)
    ensures p >= 1
  {
    if n == 0 then 1 else 10 * Pow10(n - 1)
  }

  /** Reading back the digits of `str(n)` gives `n`. */
  lemma {:induction false} DigitsOfNatToString(n: nat)
    ensures DigitsValue(NatToString(n)) == n
    decreases n
  {
    var s := NatToString(n);
    if n >= 10 {
      DigitsOfNatToString(n / 10);
      assert s[..|s| - 1] == NatToString(n / 10);
    }
  }

  /** `s` read from the left as digits with at most one '.': the digits
      taken together as one integer, how many of them follow the '.', and
      whether there is a '.'; None at any other character or a second '.'. */
  function ScanDecimal(s: string): Option<(nat, nat, bool)>
    decreases |s|
  {
    if s == [] then Some((0, 0, false))
    else match ScanDecimal(s[..|s| - 1])
      case None => None
      case Some((digits, scale, dot)) =>
        var c := s[|s| - 1];
        if IsDigit(c) then Some((digits * 10 + DigitOf(c), if dot then scale + 1 else scale, dot))
        else if c == '.' && !dot then Some((digits, scale, true))
        else None
  }

  /** Python's `float(s)` restricted to decimal literals without exponent:
      digits with at most one '.', at least one digit. */
  function ParseUnsigned(s: string): Option<real> {
    match ScanDecimal(s)
    case None => None
    case Some((digits, scale, dot)) =>
      if |s| == (if dot then 1 else 0) then None
      else Some(digits as real / Pow10(scale) as real)
  }

  /** Python's `float(s)` on an optionally signed decimal literal; `None`
      where Python raises a ValueError. */
  function ParseNumber(s: string): Option<real> {
    if |s| > 0 && (s[0] == '+' || s[0] == '-') then
      match ParseUnsigned(s[1..])
      case None => None
      case Some(v) => Some(if s[0] == '-' then -v else v)
    else
      ParseUnsigned(s)
  }

  /** A string of digits scans as the number it denotes, with no '.'. */
  lemma {:induction false} ScanDigits(s: string)
    requires AllDigits(s)
    ensures ScanDecimal(s) == Some((DigitsValue(s), 0, false))
    decreases |s|
  {
    if s != [] {
      ScanDigits(s[..|s| - 1]);
    }
  }

  /** A non-empty string of digits parses as the number it denotes, and so
      does its negation. */
  lemma ParseDigits(s: string)
    requires AllDigits(s) && |s| > 0
    ensures ParseUnsigned(s) == Some(DigitsValue(s) as real)
    ensures ParseNumber(s) == Some(DigitsValue(s) as real)
    ensures ParseNumber("-" + s) == Some(-(DigitsValue(s) as real))
  {
    ScanDigits(s);
    assert IsDigit(s[0]) && Pow10(0) == 1;
    var negated := "-" + s;
    assert negated[0] == '-' && negated[1..] == s;
    assert ParseNumber(negated) == Some(-ParseUnsigned(s).value);
  }

  /** `float(str(i)) == i` for every integer. */
  lemma IntToStringParses(i: int)
    ensures ParseNumber(IntToString(i)) == Some(i as real)
  {
    if i < 0 {
      DigitsOfNatToString(-i);
      ParseDigits(NatToString(-i));
    } else {
      DigitsOfNatToString(i);
      ParseDigits(NatToString(i));
    }
  }

  /** `sep.join(parts)`. */
  function Join(parts: seq<string>, sep: string): string {
    if parts == [] then ""
    else if |parts| == 1 then parts[0]
    else parts[0] + sep + Join(parts[1..], sep)
  }

  /** `s.replace(a, b)` for single characters. */
  function ReplaceChar(s: string, a: char, b: char): (r: string)
    ensures |r| == |s|
    ensures forall i :: 0 <= i < |s| ==> r[i] == if s[i] == a then b else s[i]
  {
    seq(|s|, i requires 0 <= i < |s| => if s[i] == a then b else s[i])
  }

  lemma ReplaceCharConcat(x: string, y: string, a: char, b: char)
    ensures ReplaceChar(x + y, a, b) == ReplaceChar(x, a, b) + ReplaceChar(y, a, b)
  {
  }

  /** How many times `c` occurs in `s`. */
  function CountChar(s: string, c: char): nat {
    if s == [] then 0 else (if s[0] == c then 1 else 0) + CountChar(s[1..], c)
  }

  lemma {:induction false} CountCharConcat(x: string, y: string, c: char)
    ensures CountChar(x + y, c) == CountChar(x, c) + CountChar(y, c)
    decreases |x|
  {
    if x != [] {
      assert (x + y)[1..] == x[1..] + y;
      CountCharConcat(x[1..], y, c);
    } else {
      assert x + y == y;
    }
  }

  lemma {:induction false} CountCharAbsent(s: string, c: char)
    requires forall i :: 0 <= i < |s| ==> s[i] != c
    ensures CountChar(s, c) == 0
    decreases |s|
  {
    if s != [] {
      CountCharAbsent(s[1..], c);
    }
  }

  /** `xs.index(x)`: the first position of `x`, or None where Python raises
      a ValueError. */
  function IndexOf(xs: seq<string>, x: string): (r: Option<nat>)
    ensures r.None? <==> x !in xs
    ensures r.Some? ==> r.value < |xs| && xs[r.value] == x
    ensures r.Some? ==> forall j :: 0 <= j < r.value ==> xs[j] != x
  {
    if xs == [] then None
    else if xs[0] == x then Some(0)
    else match IndexOf(xs[1..], x)
      case None => None
      case Some(k) => Some(k + 1)
  }
}
