/** Decimal rendering of unsigned integers, as Rust's `format!("{}", n)` prints
    them, together with the parser that inverts it. */
module Format {

  predicate IsDigit(c: char) {
    '0' <= c <= '9'
  }

  predicate AllDigits(s: string) {
    forall i :: 0 <= i < |s| ==> IsDigit(s[i])
  }

  function DigitChar(d: nat): (c: char)
    requires d < 10
    ensures IsDigit(c)
    ensures c as int - '0' as int == d
  {
    ('0' as int + d) as char
  }

  function DigitValue(c: char): (d: nat)
    requires IsDigit(c)
    ensures d < 10 && DigitChar(d) == c
  {
    c as int - '0' as int
  }

  /** The decimal text of `n`: only digits, never empty, and without a leading
      zero unless `n` is zero itself. */
  function NatToString(n: nat): (s: string)
    ensures |s| >= 1 && AllDigits(s)
    ensures s[0] == '0' <==> n == 0
    ensures n < 10 <==> |s| == 1
    decreases n
  {
    if n < 10 then [DigitChar(n)] else NatToString(n / 10) + [DigitChar(n % 10)]
  }

  /** Reads a string of digits as a decimal number (most significant first). */
  function ParseDecimal(s: string): nat
    requires AllDigits(s)
  {
    if s == [] then 0 else ParseDecimal(s[..|s| - 1]) * 10 + DigitValue(s[|s| - 1])
  }

  /** Parsing the decimal text of `n` gives `n` back. */
  lemma {:induction false} ParseNatToString(n: nat)
    ensures ParseDecimal(NatToString(n)) == n
    decreases n
  {
    var s := NatToString(n);
    if n >= 10 {
      var prefix := NatToString(n / 10);
      assert s == prefix + [DigitChar(n % 10)];
      assert s[..|s| - 1] == prefix;
      ParseNatToString(n / 10);
    }
  }

  /** Distinct numbers have distinct decimal texts. */
  lemma NatToStringInjective(a: nat, b: nat)
    requires NatToString(a) == NatToString(b)
    ensures a == b
  {
    ParseNatToString(a);
    ParseNatToString(b);
  }

  /** Two concatenations with equally long first parts have equal parts. */
  lemma SplitEqual(x1: string, r1: string, x2: string, r2: string)
    requires x1 + r1 == x2 + r2
    requires |x1| == |x2|
    ensures x1 == x2 && r1 == r2
  {
    assert x1 == (x1 + r1)[..|x1|];
    assert x2 == (x2 + r2)[..|x2|];
    assert r1 == (x1 + r1)[|x1|..];
    assert r2 == (x2 + r2)[|x2|..];
  }

  /** A text split at the first occurrence of a delimiter splits one way only. */
  lemma SplitAtDelimiter(x1: string, r1: string, x2: string, r2: string, c: char)
    requires x1 + [c] + r1 == x2 + [c] + r2
    requires forall i :: 0 <= i < |x1| ==> x1[i] != c
    requires forall i :: 0 <= i < |x2| ==> x2[i] != c
    ensures x1 == x2 && r1 == r2
  {
    var s := x1 + [c] + r1;
    assert s[|x1|] == c;
    assert (x2 + [c] + r2)[|x2|] == c;
    SplitEqual(x1 + [c], r1, x2 + [c], r2);
    SplitEqual(x1, [c], x2, [c]);
  }

  lemma Associate(a: string, b: string, c: string)
    ensures (a + b) + c == a + (b + c)
  {
  }

  lemma Regroup4(a: string, b: string, c: string, d: string)
    ensures a + b + c + d == a + (b + (c + d))
  {
  }

  /** Two words that end in their only space, each followed by some text,
      split the same way when the whole texts are equal. */
  lemma SplitAfterSpace(t1: string, r1: string, t2: string, r2: string)
    requires |t1| >= 1 && t1[|t1| - 1] == ' ' && forall i :: 0 <= i < |t1| - 1 ==> t1[i] != ' '
    requires |t2| >= 1 && t2[|t2| - 1] == ' ' && forall i :: 0 <= i < |t2| - 1 ==> t2[i] != ' '
    requires t1 + r1 == t2 + r2
    ensures t1 == t2 && r1 == r2
  {
    var k1, k2 := t1[..|t1| - 1], t2[..|t2| - 1];
    assert t1 == k1 + [' '] && t2 == k2 + [' '];
    SplitAtDelimiter(k1, r1, k2, r2, ' ');
  }
}
