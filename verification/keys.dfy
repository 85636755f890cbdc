/** What the services build strings from: `left:right` pairs, decimal counters, lower case. */
module Keys {

  function Join(left: string, right: string): string {
    left + ":" + right
  }

  /** A key names one pair only, as long as the left part holds no colon (an identifier never does). */
  lemma {:induction false} JoinInjective(left: string, right: string, left': string, right': string)
    requires ':' !in left && ':' !in left'
    requires Join(left, right) == Join(left', right')
    ensures left == left' && right == right'
  {
    var s, t := Join(left, right), Join(left', right');
    assert s[|left|] == ':' && t[|left'|] == ':';
    NotInside(left, right, |left'|);
    NotInside(left', right', |left|);
    assert left == s[..|left|] && left' == t[..|left'|];
    assert right == s[|left| + 1..] && right' == t[|left'| + 1..];
  }

  lemma NotInside(left: string, right: string, k: nat)
    requires ':' !in left && k < |Join(left, right)| && Join(left, right)[k] == ':'
    ensures k >= |left|
  {
  }

  /** Lower case of the ASCII letters. */
  function Lower(c: char): char {
    if 'A' <= c <= 'Z' then c - 'A' + 'a' else c
  }

  const DIGITS: string := "0123456789"

  /** A natural number as the source prints it in a template string. */
  function Decimal(n: nat): (s: string)
    ensures |s| > 0 && forall c :: c in s ==> '0' <= c <= '9'
  {
    if n < 10 then [DIGITS[n]] else Decimal(n / 10) + [DIGITS[n % 10]]
  }

  /** Printing is injective. */
  lemma {:induction false} DecimalInjective(m: nat, n: nat)
    requires Decimal(m) == Decimal(n)
    ensures m == n
    decreases m + n
  {
    assert m >= 10 ==> |Decimal(m)| > 1;
    assert n >= 10 ==> |Decimal(n)| > 1;
    var s, t := Decimal(m), Decimal(n);
    assert s[|s| - 1] == DIGITS[m % 10] && t[|t| - 1] == DIGITS[n % 10];
    DigitInjective(m % 10, n % 10);
    if m >= 10 {
      assert Decimal(m / 10) == s[..|s| - 1] && Decimal(n / 10) == t[..|t| - 1];
      DecimalInjective(m / 10, n / 10);
    }
  }

  lemma DigitInjective(a: nat, b: nat)
    requires a < 10 && b < 10 && DIGITS[a] == DIGITS[b]
    ensures a == b
  {
  }
}
