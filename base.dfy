/** Small shared vocabulary: optional values and results, the string helpers
    the proxy uses (prefix before a separator, decimal formatting of ports,
    path joining) and the time units the clock is measured in. */
module Base {

  datatype Option<+T> = None | Some(value: T)

  datatype Result<+R, +E> = Success(value: R) | Failure(error: E)

  /** Time is counted in nanoseconds, like a Go time.Duration. */
  const Second: int := 1_000_000_000
  const Hour: int := 3600 * Second

  /** The part of `s` before the first occurrence of `c`, which is all of `s`
      when `c` does not occur: element 0 of strings.Split(s, string(c)). */
  function BeforeFirst(s: string, c: char): (r: string)
    ensures c !in r
    ensures r <= s
    ensures c in s ==> |r| < |s| && s[|r|] == c
    ensures c !in s ==> r == s
  {
    if s == [] then []
    else if s[0] == c then []
    else [s[0]] + BeforeFirst(s[1..], c)
  }

  predicate IsDigit(ch: char) { '0' <= ch <= '9' }

  function DigitChar(d: nat): (ch: char)
    requires d < 10
    ensures IsDigit(ch)
  {
    ['0','1','2','3','4','5','6','7','8','9'][d]
  }

  function DigitValue(ch: char): (d: nat)
    requires IsDigit(ch)
    ensures d < 10 && DigitChar(d) == ch
  {
    (ch as int - '0' as int) as nat
  }

  /** Decimal digits of `n`, most significant first, without leading zeros. */
  function NatToDecimal(n: nat): (s: string)
    ensures |s| > 0
    ensures forall i :: 0 <= i < |s| ==> IsDigit(s[i])
    ensures s[0] == '0' ==> n == 0
    decreases n
  {
    if n < 10 then [DigitChar(n)] else NatToDecimal(n / 10) + [DigitChar(n % 10)]
  }

  /** strconv.Itoa: decimal, with a leading '-' for negative numbers. */
  function Itoa(n: int): (s: string)
    ensures |s| > 0
    ensures (n < 0) == (s[0] == '-')
    ensures n >= 0 && s[0] == '0' ==> n == 0
    ensures n < 0 ==> |s| > 1 && IsDigit(s[1]) && s[1] != '0'
  {
    if n < 0 then "-" + NatToDecimal(-n) else NatToDecimal(n)
  }

  /** The value of a non-empty string of decimal digits. */
  function DecimalValue(s: string): nat
    requires forall i :: 0 <= i < |s| ==> IsDigit(s[i])
  {
    if s == [] then 0 else 10 * DecimalValue(s[..|s| - 1]) + DigitValue(s[|s| - 1])
  }

  /** Reading a decimal integer back, the inverse of Itoa. */
  function ParseInt(s: string): Option<int>
  {
    if |s| > 0 && s[0] == '-' then
      if |s| > 1 && forall i :: 1 <= i < |s| ==> IsDigit(s[i]) then Some(0 - DecimalValue(s[1..]) as int) else None
    else if |s| > 0 && forall i :: 0 <= i < |s| ==> IsDigit(s[i]) then Some(DecimalValue(s))
    else None
  }

  lemma {:induction false} NatToDecimalValue(n: nat)
    ensures DecimalValue(NatToDecimal(n)) == n
    decreases n
  {
    var s := NatToDecimal(n);
    if n >= 10 {
      NatToDecimalValue(n / 10);
      assert s[..|s| - 1] == NatToDecimal(n / 10);
    }
  }

  /** A run of digits after a '-' reads back as the negated value. */
  lemma {:induction false} ParseNegative(d: string)
    requires |d| > 0 && forall i :: 0 <= i < |d| ==> IsDigit(d[i])
    ensures ParseInt("-" + d) == Some(0 - DecimalValue(d) as int)
  {
    var s := "-" + d;
    assert s[1..] == d;
    assert forall i :: 1 <= i < |s| ==> IsDigit(s[i]) by {
      forall i | 1 <= i < |s| ensures IsDigit(s[i]) { assert s[i] == d[i - 1]; }
    }
  }

  /** A run of digits reads back as its value. */
  lemma ParseNonNegative(d: string)
    requires |d| > 0 && forall i :: 0 <= i < |d| ==> IsDigit(d[i])
    ensures ParseInt(d) == Some(DecimalValue(d) as int)
  {
    assert IsDigit(d[0]);
  }

  /** Every port is printed so that it reads back as the same number. */
  lemma {:induction false} ItoaRoundTrip(n: int)
    ensures ParseInt(Itoa(n)) == Some(n)
  {
    var s := Itoa(n);
    if n < 0 {
      assert s == "-" + NatToDecimal(-n);
      NegativeRoundTrip(-n);
    } else {
      assert s == NatToDecimal(n);
      NonNegativeRoundTrip(n);
    }
  }

  lemma NegativeRoundTrip(m: nat)
    requires m > 0
    ensures ParseInt("-" + NatToDecimal(m)) == Some(0 - m)
  {
    NatToDecimalValue(m);
    ParseNegative(NatToDecimal(m));
  }

  lemma NonNegativeRoundTrip(n: nat)
    ensures ParseInt(NatToDecimal(n)) == Some(n as int)
  {
    NatToDecimalValue(n);
    ParseNonNegative(NatToDecimal(n));
  }

  /** filepath.Join without its cleaning step: the non-empty elements joined
      by "/", or "" when every element is empty. */
  function JoinPath(parts: seq<string>): (p: string)
    ensures p == "" <==> forall i :: 0 <= i < |parts| ==> parts[i] == ""
  {
    if parts == [] then ""
    else
      var init, last := JoinPath(parts[..|parts| - 1]), parts[|parts| - 1];
      if last == "" then init
      else if init == "" then last
      else init + "/" + last
  }

  /** Two non-empty elements are joined with one separator. */
  lemma JoinPathPair(a: string, b: string)
    requires a != "" && b != ""
    ensures JoinPath([a, b]) == a + "/" + b
  {
    assert [a, b][..1] == [a];
    assert [a][..0] == [];
  }

  /** Joining in two steps gives the same path as joining all elements at
      once. */
  lemma JoinPathNested(a: string, b: string, c: string)
    ensures JoinPath([JoinPath([a, b]), c]) == JoinPath([a, b, c])
  {
    assert [a, b, c][..2] == [a, b];
    assert [JoinPath([a, b]), c][..1] == [JoinPath([a, b])];
    assert [JoinPath([a, b])][..0] == [];
  }
}
