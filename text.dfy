/** String helpers shared by the statement builders: JavaScript's
    `Array.prototype.join` and the decimal rendering of integers. */
module Text {

  /** `xs.join(sep)`: the separator stands between consecutive elements only.
      Defined from the right end so that a loop appending one element at a
      time follows the definition. */
  function Join(sep: string, xs: seq<string>): string
    decreases |xs|
  {
    if |xs| == 0 then ""
    else if |xs| == 1 then xs[0]
    else Join(sep, xs[..|xs| - 1]) + sep + xs[|xs| - 1]
  }

  /** Join read from the left: the first element, the separator, the rest. */
  lemma {:induction false} JoinFirst(sep: string, xs: seq<string>)
    requires |xs| >= 2
    ensures Join(sep, xs) == xs[0] + sep + Join(sep, xs[1..])
    decreases |xs|
  {
    var n := |xs|;
    var init, tail := xs[..n - 1], xs[1..];
    if n == 2 {
      assert init == [xs[0]];
      assert tail == [xs[1]];
    } else {
      var middle := xs[1..n - 1];
      assert Join(sep, xs) == Join(sep, init) + sep + xs[n - 1];
      JoinFirst(sep, init);
      assert init[1..] == middle;
      assert Join(sep, init) == xs[0] + sep + Join(sep, middle);
      assert tail[..n - 2] == middle;
      assert Join(sep, tail) == Join(sep, middle) + sep + xs[n - 1];
    }
  }

  /** Appending one more element to a non-empty join. */
  lemma JoinSnoc(sep: string, xs: seq<string>, x: string)
    requires |xs| >= 1
    ensures Join(sep, xs + [x]) == Join(sep, xs) + sep + x
  {
    assert (xs + [x])[..|xs|] == xs;
  }

  /** The digit characters '0' .. '9'. */
  predicate IsDigit(c: char)
  {
    '0' <= c <= '9'
  }

  function DigitChar(d: nat): (c: char)
    requires d < 10
    ensures IsDigit(c) && c as int - '0' as int == d
  {
    ('0' as int + d) as char
  }

  /** The decimal numeral of a natural number, most significant digit first,
      without leading zeros. */
  function NatToString(n: nat): (s: string)
    ensures |s| > 0
    ensures forall i :: 0 <= i < |s| ==> IsDigit(s[i])
    ensures |s| > 1 ==> s[0] != '0'
    decreases n
  {
    if n < 10 then [DigitChar(n)] else NatToString(n / 10) + [DigitChar(n % 10)]
  }

  /** The value of a string of decimal digits (the independent reading of a
      numeral, used to show that NatToString loses nothing). */
  function DigitsValue(s: string): nat
    requires forall i :: 0 <= i < |s| ==> IsDigit(s[i])
    decreases |s|
  {
    if |s| == 0 then 0
    else assert IsDigit(s[|s| - 1]); DigitsValue(s[..|s| - 1]) * 10 + (s[|s| - 1] as int - '0' as int)
  }

  /** Reading the numeral back gives the number. */
  lemma {:induction false} NatToStringRoundTrip(n: nat)
    ensures DigitsValue(NatToString(n)) == n
    decreases n
  {
    if n >= 10 {
      NatToStringRoundTrip(n / 10);
      var s := NatToString(n);
      assert s[..|s| - 1] == NatToString(n / 10);
    }
  }

  /** Distinct numbers have distinct numerals. */
  lemma NatToStringInjective(a: nat, b: nat)
    ensures NatToString(a) == NatToString(b) ==> a == b
  {
    NatToStringRoundTrip(a);
    NatToStringRoundTrip(b);
  }

  /** JavaScript's `String(n)` for an integer-valued number: a minus sign for
      negative values, then the decimal numeral of the magnitude. */
  function IntToString(n: int): (s: string)
    ensures |s| > 0
    ensures n >= 0 ==> s == NatToString(n)
    ensures n < 0 ==> s == "-" + NatToString(-n)
  {
    if n < 0 then "-" + NatToString(-n) else NatToString(n)
  }

  /** The text starts with a minus sign exactly for negative integers. */
  lemma SignChar(n: int)
    ensures (IntToString(n)[0] == '-') <==> n < 0
  {
    if n >= 0 {
      assert IsDigit(NatToString(n)[0]);
    }
  }

  /** Distinct integers render differently. */
  lemma IntToStringInjective(a: int, b: int)
    ensures IntToString(a) == IntToString(b) ==> a == b
  {
    SignChar(a);
    SignChar(b);
    if IntToString(a) == IntToString(b) {
      if a >= 0 && b >= 0 {
        NatToStringInjective(a, b);
      } else if a < 0 && b < 0 {
        assert IntToString(a)[1..] == NatToString(-a);
        assert IntToString(b)[1..] == NatToString(-b);
        NatToStringInjective(-a, -b);
      }
    }
  }
}
