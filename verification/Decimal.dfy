/** Decimal numerals: `strconv.Itoa`, `strconv.Atoi` and JavaScript's `String(n)`. */
module Decimal {

  const INT_MAX := 0x7fff_ffff_ffff_ffff
  const INT_MIN := -0x8000_0000_0000_0000

  predicate IsDigit(c: char) {
    '0' <= c <= '9'
  }

  function Digit(d: nat): (c: char)
    requires d < 10
    ensures IsDigit(c) && c as int - '0' as int == d
  {
    (d + '0' as int) as char
  }

  function Digits(n: nat): (s: string)
    ensures s != "" && forall c | c in s :: IsDigit(c)
  {
    if n < 10 then [Digit(n)] else Digits(n / 10) + [Digit(n % 10)]
  }

  function Itoa(n: int): (s: string)
    ensures s != "" && forall c | c in s :: IsDigit(c) || c == '-'
  {
    if n < 0 then "-" + Digits(-n) else Digits(n)
  }

  function Value(s: string): nat
    requires forall c | c in s :: IsDigit(c)
  {
    if s == "" then 0
    else
      assert IsDigit(s[|s| - 1]);
      10 * Value(s[..|s| - 1]) + (s[|s| - 1] as int - '0' as int)
  }

  predicate Numeral(s: string) {
    s != "" && forall c | c in s :: IsDigit(c)
  }

  /** The value `strconv.Atoi` returns next to its error: 0 on bad syntax, clamped when too big. */
  function Atoi(s: string): int {
    var body := if s != "" && (s[0] == '-' || s[0] == '+') then s[1..] else s;
    if !Numeral(body) then 0
    else
      var v: int := if s[0] == '-' then 0 - Value(body) else Value(body);
      if v > INT_MAX then INT_MAX else if v < INT_MIN then INT_MIN else v
  }

  lemma {:induction false} ValueOfDigits(n: nat)
    ensures Value(Digits(n)) == n
  {
    if n >= 10 {
      ValueOfDigits(n / 10);
      var s := Digits(n / 10) + [Digit(n % 10)];
      assert s[..|s| - 1] == Digits(n / 10);
    } else {
      assert [Digit(n)][..0] == "";
    }
  }

  /** Printing and parsing any Go `int` is the identity. */
  lemma AtoiOfItoa(n: int)
    requires INT_MIN <= n <= INT_MAX
    ensures Atoi(Itoa(n)) == n
  {
    var m: nat := if n < 0 then -n else n;
    ValueOfDigits(m);
    assert ("-" + Digits(m))[1..] == Digits(m);
    assert Digits(m)[0] in Digits(m);
  }

  lemma ItoaInjective(a: int, b: int)
    requires Itoa(a) == Itoa(b)
    ensures a == b
  {
    var x: nat, y: nat := if a < 0 then -a else a, if b < 0 then -b else b;
    assert Digits(x)[0] in Digits(x) && Digits(y)[0] in Digits(y);
    assert ("-" + Digits(x))[1..] == Digits(x) && ("-" + Digits(y))[1..] == Digits(y);
    ValueOfDigits(x);
    ValueOfDigits(y);
  }

  /** Two numerals joined by a colon can be told apart again. */
  lemma PairInjective(a: int, b: int, c: int, d: int)
    requires Itoa(a) + ":" + Itoa(b) == Itoa(c) + ":" + Itoa(d)
    ensures a == c && b == d
  {
    var x, y := Itoa(a), Itoa(c);
    var s, t := x + ":" + Itoa(b), y + ":" + Itoa(d);
    assert s[|x|] == ':' && t[|y|] == ':';
    forall i | 0 <= i < |x| ensures s[i] != ':' { assert s[i] == x[i] && x[i] in x; }
    forall i | 0 <= i < |y| ensures t[i] != ':' { assert t[i] == y[i] && y[i] in y; }
    assert |x| == |y|;
    assert s[..|x|] == x && t[..|y|] == y;
    assert s[|x| + 1..] == Itoa(b) && t[|y| + 1..] == Itoa(d);
    ItoaInjective(a, c);
    ItoaInjective(b, d);
  }
}
